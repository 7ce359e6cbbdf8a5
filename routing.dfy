/** The handlers that the hooks `useHandwritingGenerator` and
    `usePdfOperations` register on the bridge (src/context/WebViewContext.tsx):
    each turns an incoming envelope into at most one call of the callbacks the
    screen supplied. A callback call is returned as a value. */
module Routing {
  import opened Common
  import opened Messages

  /** The argument of `onProgress`. */
  datatype ProgressData = ProgressData(step: string, current: int, total: int, message: string)

  /** One callback call a handler makes. */
  datatype Callback =
    | ImagesGenerated(images: seq<string>)
    | PdfGenerated(data: string)
    | TextExtracted(text: string)
    | ProgressReported(progress: ProgressData)
    | ErrorReported(error: string, code: Option<string>)

  /** A registered handler, with the optional callbacks its screen supplied
      (`onImagesGenerated` of the handwriting hook is always supplied). */
  datatype Handler =
    | HandwritingHandler(hasOnError: bool)
    | PdfHandler(hasOnPdfGenerated: bool, hasOnTextExtracted: bool, hasOnError: bool, hasOnProgress: bool)

  /** `data.data || 'Unknown error'`. */
  function ErrorText(m: Incoming): string
  {
    if Truthy(m.data) then m.data.value else "Unknown error"
  }

  /** The `PROGRESS` guard: a non-empty step and message, and both counters. */
  predicate ProgressComplete(m: Incoming)
  {
    Truthy(m.step) && m.current.Some? && m.total.Some? && Truthy(m.message)
  }

  function ProgressOf(m: Incoming): ProgressData
    requires ProgressComplete(m)
  {
    ProgressData(m.step.value, m.current.value, m.total.value, m.message.value)
  }

  /** The `switch (data.type)` of the handler: at most one callback, and only
      for a type the handler listens to. */
  function Route(h: Handler, m: Incoming): (calls: seq<Callback>)
    ensures |calls| <= 1
    ensures calls != [] ==> Listens(h, m.kind)
  {
    match h
    case HandwritingHandler(hasOnError) =>
      if m.kind == Success then
        if m.images.Some? then [ImagesGenerated(m.images.value)] else []
      else if m.kind == Error then
        if hasOnError then [ErrorReported(ErrorText(m), m.code)] else []
      else []
    case PdfHandler(hasOnPdfGenerated, hasOnTextExtracted, hasOnError, hasOnProgress) =>
      if m.kind == PdfSuccess then
        if Truthy(m.data) && hasOnPdfGenerated then [PdfGenerated(m.data.value)] else []
      else if m.kind == PdfTextExtracted then
        if Truthy(m.data) && hasOnTextExtracted then [TextExtracted(m.data.value)] else []
      else if m.kind == Progress then
        if ProgressComplete(m) && hasOnProgress then [ProgressReported(ProgressOf(m))] else []
      else if m.kind == Error then
        if hasOnError then [ErrorReported(ErrorText(m), m.code)] else []
      else []
  }

  /** Which message types a handler listens to. */
  predicate Listens(h: Handler, kind: MessageType)
  {
    if h.HandwritingHandler? then kind == Success || kind == Error
    else kind == PdfSuccess || kind == PdfTextExtracted || kind == Progress || kind == Error
  }

  /** `WEBVIEW_READY` and unknown types never reach a callback. */
  lemma RouteIgnoresOthers(h: Handler, m: Incoming)
    requires m.kind == Ready || m.kind.Unrecognised?
    ensures Route(h, m) == []
  {
  }

  /** `ERROR` calls `onError`, when supplied, with the message's `data`, or
      with `'Unknown error'` when `data` is absent or empty, and its code. */
  lemma RouteError(h: Handler, m: Incoming)
    requires m.kind == Error
    ensures Route(h, m) == if h.hasOnError then [ErrorReported(ErrorText(m), m.code)] else []
    ensures !Truthy(m.data) ==> ErrorText(m) == "Unknown error"
    ensures Truthy(m.data) ==> ErrorText(m) == m.data.value
  {
  }

  /** `PROGRESS` reaches `onProgress` exactly when step, current, total and
      message are all present (step and message non-empty), with those
      values. */
  lemma RouteProgress(h: Handler, m: Incoming)
    requires h.PdfHandler? && h.hasOnProgress && m.kind == Progress
    ensures Route(h, m) != [] <==> ProgressComplete(m)
    ensures Route(h, m) != [] ==>
      Route(h, m) == [ProgressReported(ProgressData(m.step.value, m.current.value, m.total.value, m.message.value))]
  {
  }

  /** `SUCCESS` forwards the image list whenever it is present, even an empty
      one (an array is truthy); `PDF_SUCCESS` and `PDF_TEXT_EXTRACTED` forward
      only non-empty data. */
  lemma RoutePayloads(h: Handler, m: Incoming)
    ensures h.HandwritingHandler? && m.kind == Success ==>
      (Route(h, m) != [] <==> m.images.Some?) && (m.images == Some([]) ==> Route(h, m) == [ImagesGenerated([])])
    ensures h.PdfHandler? && h.hasOnPdfGenerated && m.kind == PdfSuccess ==>
      (Route(h, m) != [] <==> Truthy(m.data)) && (Route(h, m) != [] ==> Route(h, m) == [PdfGenerated(m.data.value)])
    ensures h.PdfHandler? && h.hasOnTextExtracted && m.kind == PdfTextExtracted ==>
      (Route(h, m) != [] <==> Truthy(m.data)) && (Route(h, m) != [] ==> Route(h, m) == [TextExtracted(m.data.value)])
  {
  }
}
