/** The envelopes that cross the bridge between the app and the hidden
    WebView (src/context/WebViewContext.tsx). Serialisation to JSON and script
    injection are left out: a message is dispatched as a value. */
module Messages {
  import opened Common
  import Engine

  /** What the host posts into the WebView, one constructor per `type`. */
  datatype Outgoing =
    | UpdatePreview(text: string, config: Engine.Config)
    | GenerateImage(text: string, config: Engine.Config)
    | GeneratePdf(images: Option<seq<string>>)
    | ExtractTextFromPdf(data: string, transferId: string)
    | PdfDataStart(transferId: string, totalChunks: nat)
    | PdfDataChunk(chunk: string, transferId: string, chunkIndex: nat, isLast: bool)
    | PdfDataEnd(transferId: string)

  /** The `type` field each envelope carries. */
  function TypeOf(m: Outgoing): string
  {
    match m
    case UpdatePreview(_, _) => "UPDATE_PREVIEW"
    case GenerateImage(_, _) => "GENERATE_IMAGE"
    case GeneratePdf(_) => "GENERATE_PDF"
    case ExtractTextFromPdf(_, _) => "EXTRACT_TEXT_FROM_PDF"
    case PdfDataStart(_, _) => "PDF_DATA_START"
    case PdfDataChunk(_, _, _, _) => "PDF_DATA_CHUNK"
    case PdfDataEnd(_) => "PDF_DATA_END"
  }

  /** The WebView script acts on `GENERATE` only, and the host never sends
      that type: no envelope of the host starts a generation in the script
      of src/utils/htmlTemplate.ts. */
  lemma NoHostMessageIsGenerate(m: Outgoing)
    ensures TypeOf(m) != "GENERATE"
  {
  }

  /** The `type` of a message coming back from the WebView. */
  datatype MessageType =
    | Ready
    | Success
    | PdfSuccess
    | PdfTextExtracted
    | Progress
    | Error
    | Unrecognised(name: string)

  /** A parsed incoming envelope (`MessageData`); `None` is an absent field.
      Absent and `null` fields are not told apart. */
  datatype Incoming = Incoming(
    kind: MessageType,
    data: Option<string>,
    images: Option<seq<string>>,
    code: Option<string>,
    step: Option<string>,
    current: Option<int>,
    total: Option<int>,
    message: Option<string>)
}
