# InkJet core, modelled in Dafny

InkJet is a React Native app. It turns typed or PDF-imported text into
handwriting images by driving a hidden WebView that paginates the text and
captures each page. This project models the parts of the app that carry
logic, one module per concern:

- `Messages` (messages.dfy): the envelopes that cross the bridge between the
  app and the WebView.
- `Routing` (routing.dfy): the callback `switch` of the two hooks,
  `useHandwritingGenerator` and `usePdfOperations`.
- `Bridge` (bridge.dfy): the `WebViewProvider` state as a class `Host`.
  - `sendMessage` drops, injects or queues a message.
  - A FIFO queue is flushed once, when the WebView reports it is ready.
  - The handler registry is an insertion-ordered `Map` with set and delete.
  - `restartWebView` and the crash prompts.
  - `handleMessage` delivers each message to every handler.
  - The chunked sender of `extractTextFromPDF`.
- `PdfTransfer` (transfer.dfy): the message list that `extractTextFromPDF`
  sends, with its shape and its reassembly round trip.
- `Engine` (engine.dfy): the script embedded in the WebView page.
  - A whitespace-preserving tokenizer, `split(/(\s+)/)`.
  - The greedy page-fill loop with its one-token backtrack.
  - The paper-style toggles and the `GENERATE` message handler.
  - The page surface is a class `Surface`.
- `Errors` (errors.dfy): the error taxonomy of `errorUtils.ts`.
- `Home` (home.dfy): the home screen's decisions.
  - The gates of the Next button.
  - The character counter.
  - The PDF-error classification.
  - The theme toggle.
  - The state kept while a PDF's text is extracted, in a class
    `HomeScreen`.
- `Output` (output.dfy): the output screen.
  - Cleaning of image and PDF data URLs (the `data:[<mediatype>][;base64],<data>`
    syntax of RFC 2397, section 3).
  - File names and the download directory.
  - The share, download and PDF-save flows, in a class `OutputScreen`.
- `Stepper` (stepper.dfy): the clamped `-` and `+` buttons of `ControlRow`.
- `Common` (common.dfy): a small shared vocabulary.
  - JavaScript `\s` whitespace and `trim`.
  - `Math.ceil` division.
  - Decimal rendering of numbers.

Native I/O becomes an outcome passed in as a parameter:

- the document picker, file reads and writes, copies, the share sheet and the
  permission dialog;
- `Date.now()`, which becomes a natural `ts`;
- the random transfer id, which becomes a `transferId` argument;
- the DOM's measurement of rendered text, which becomes a function
  `height: string -> nat`.

Alerts, toasts, share requests, injected scripts and handler invocations are
recorded as values in sequence fields, in the order they happen.

Some behaviour is modelled as the code does it, not as its comments or other
files suggest.

- The host never sends the `GENERATE` type, and that is the only type the
  page script acts on (`Messages.NoHostMessageIsGenerate`). The page script
  also never posts `WEBVIEW_READY`. In the model, readiness arrives only
  through `Bridge.Host.HandleMessage`.
- The page loop runs `totalPages` times, a count computed from the height of
  the whole text. It is not bounded by running out of tokens.
  - Tokens left after the last page are never captured
    (`Engine.TrailingTokenDropped` gives a concrete input).
  - A token taller than the page is taken back at once, so the page comes out
    empty and the loop makes no progress (`Engine.OversizedTokenStalls`).
  - The loop has no iteration cap: the constant `MAX_PAGINATION_ITERATIONS`
    in src/utils/constants.ts is not used by the loop.
- On Android, `handlePdfGenerated` asks for the storage permission and ignores
  the answer, so the model takes no permission input there.
- The handwriting handler forwards `SUCCESS` whenever `images` is present,
  even when the list is empty.

The pagination proofs assume one thing about the measurement: empty content
fits on a page. They need no monotonicity of the height function.

## Model

| member | source | states |
|---|---|---|
| Messages.NoHostMessageIsGenerate | src/utils/htmlTemplate.ts:279 | no envelope the host sends has the type `GENERATE`, the only type the page script acts on |
| Routing.Route | src/context/WebViewContext.tsx:233-298 | a handler makes at most one callback call per message, and only for a type it listens to |
| Routing.RouteIgnoresOthers | src/context/WebViewContext.tsx:274-298 | `WEBVIEW_READY` and unknown types reach no callback |
| Routing.RouteError | src/context/WebViewContext.tsx:295-297 | `ERROR` calls `onError` when supplied, with the data, or with 'Unknown error' when the data is absent or empty, and with the code |
| Routing.RouteProgress | src/context/WebViewContext.tsx:285-294 | `PROGRESS` reaches `onProgress` iff step, current, total and message are all present, with step and message non-empty; it carries exactly those values |
| Routing.RoutePayloads | src/context/WebViewContext.tsx:236-284 | `SUCCESS` is forwarded iff `images` is present, an empty list included; `PDF_SUCCESS` and `PDF_TEXT_EXTRACTED` are forwarded iff the data is non-empty, carrying it |
| Bridge.Remove | src/context/WebViewContext.tsx:110 | removing an id keeps exactly the other ids, without duplicates, and an absent id changes nothing |
| Bridge.RemoveAt | src/context/WebViewContext.tsx:110 | deleting the id at position p of the iteration order closes the gap and moves no other id |
| Bridge.Register | src/context/WebViewContext.tsx:107-108 | the id maps to the new handler; other entries are unchanged; a new id goes last in iteration order and an existing one keeps its place; registry validity is preserved |
| Bridge.Unregister | src/context/WebViewContext.tsx:109-111 | the id is gone; every other entry and its place are unchanged; validity is preserved; deleting an absent id is a no-op |
| Bridge.RegisterUnregister | src/context/WebViewContext.tsx:107-111 | registering a fresh id and then calling the returned unregister restores the registry |
| Bridge.Deliveries | src/context/WebViewContext.tsx:130-132 | the i-th invocation is handler `order[i]` applied to the message, one per registered handler |
| Bridge.DeliveredOnceEach | src/context/WebViewContext.tsx:130-132 | every registered handler is invoked exactly once per message, and nothing else is invoked |
| Bridge.ModeOf | src/context/WebViewContext.tsx:88-105 | a message is dropped iff not connected (false or null), and injected iff connected, mounted and ready; otherwise it is queued |
| Bridge.SendAllEffects | src/context/WebViewContext.tsx:88-105 | offline, one alert per message and no queue or injection change; online, no alert and each message appended once, in order, to exactly one of the queue and the injected log |
| Bridge.SendAllAppend | src/context/WebViewContext.tsx:88-105 | sending two lists one after the other equals sending their concatenation |
| Bridge.Host.constructor | src/context/WebViewContext.tsx:58-67 | initial state: not ready, connected, key 0, empty queue, empty registry |
| Bridge.Host.SetConnectivity | src/context/WebViewContext.tsx:70-75 | the NetInfo listener sets the connectivity flag |
| Bridge.Host.SetMounted | src/context/WebViewContext.tsx:98 | attaching or detaching the WebView ref |
| Bridge.Host.Send | src/context/WebViewContext.tsx:88-105 | the new queue, injected log and alerts are those of sending `[m]` in the current mode |
| Bridge.Host.FlushQueue | src/context/WebViewContext.tsx:78-86 | every queued message is injected once, in FIFO order, after those already injected, and the queue becomes empty |
| Bridge.Host.RegisterHandler | src/context/WebViewContext.tsx:107-112 | the registry becomes `Register` of the old one, and validity is kept |
| Bridge.Host.UnregisterHandler | src/context/WebViewContext.tsx:109-111 | the registry becomes `Unregister` of the old one, and validity is kept |
| Bridge.Host.Restart | src/context/WebViewContext.tsx:114-119 | the queue is empty, ready is false, and the key is one more than before |
| Bridge.Host.OnWebViewError | src/context/WebViewContext.tsx:140-150 | a WebView error only adds the 'Generator Error' alert |
| Bridge.Host.OnProcessGone | src/context/WebViewContext.tsx:152-173 | a crash only adds the 'Generator Crashed' prompt; it restarts nothing |
| Bridge.Host.ConfirmCrashAlert | src/context/WebViewContext.tsx:157-161 | the prompt's OK restarts: the queue is empty, ready is false, and the key is one more |
| Bridge.Host.Deliver | src/context/WebViewContext.tsx:130-132 | the invocations appended are exactly `Deliveries` over the registry, in registration order |
| Bridge.Host.HandleMessage | src/context/WebViewContext.tsx:121-138 | unparseable input changes nothing; a parsed message sets ready if it is `WEBVIEW_READY` and reaches every handler once in order; a false-to-true change of ready flushes the queue, and otherwise queue and injected log are unchanged |
| Bridge.Host.SendChunks | src/context/WebViewContext.tsx:325-340 | the loop over offsets `i += C`, indexing chunks by `floor(i / C)`, sends exactly the chunk messages of the specification |
| Bridge.Host.ExtractTextFromPdf | src/context/WebViewContext.tsx:307-342 | the bridge state after the call is that of sending exactly `TransferMessages(payload, C, transferId)` through `sendMessage` |
| PdfTransfer.ChunkSize | src/context/WebViewContext.tsx:311 | the chunk size is positive: 250 KB on Android and 500 KB elsewhere |
| PdfTransfer.DivUnique | src/context/WebViewContext.tsx:326 | at offset `k * C` the computed `floor(i / C)` is `k` |
| PdfTransfer.ChunkCount | src/context/WebViewContext.tsx:322 | the number of chunks from offset i is `ceil((L - i) / C)`, the `totalChunks` the code announces |
| PdfTransfer.ChunkFields | src/context/WebViewContext.tsx:325-334 | chunks are numbered consecutively and share the transfer id; each is non-empty and at most C long, all but the last exactly C; `isLast` marks the last chunk and no other |
| PdfTransfer.ChunkJoin | src/context/WebViewContext.tsx:325-334 | the chunks from offset i, joined in order, are the rest of the payload |
| PdfTransfer.TransferShape | src/context/WebViewContext.tsx:316-341 | if L ≤ C, one `EXTRACT_TEXT_FROM_PDF` carries the whole payload; otherwise `START(ceil(L/C))`, then that many well-formed chunks with indices 0..n-1, then `END`, all under one transfer id |
| PdfTransfer.TransferRoundTrip | src/context/WebViewContext.tsx:316-341 | whichever way the payload travels, a receiver rebuilds exactly the payload |
| Common.CeilDiv | src/context/WebViewContext.tsx:322 | `Math.ceil(n / d)`: the least q with q·d ≥ n |
| Common.TrimEmptyIffBlank | src/screens/HomeScreen.tsx:128 | `!text.trim()` holds iff every character is JavaScript whitespace |
| Engine.Tokenize | src/utils/htmlTemplate.ts:216 | `split(/(\s+)/)` yields at least one token |
| Engine.TokenizeShape | src/utils/htmlTemplate.ts:216 | the token count is odd; words without whitespace sit at even positions and non-empty whitespace runs at odd ones; only the first and last token can be empty |
| Engine.TokenizeLossless | src/utils/htmlTemplate.ts:216 | joining the tokens gives back the text exactly |
| Engine.PageEnd | src/utils/htmlTemplate.ts:224-235 | the fill loop and its backtrack stop within the tokens, at most one token behind the index the loop reached |
| Engine.FillPage | src/utils/htmlTemplate.ts:224-235 | a page never moves `wordCount` backwards or past the last token |
| Engine.FillPageFits | src/utils/htmlTemplate.ts:224-235 | a finished page fits the page height, and unless it took every remaining token, adding the next token would overflow it |
| Engine.Layout | src/utils/htmlTemplate.ts:219-238 | the loop produces exactly `totalPages` pages |
| Engine.LayoutEnd | src/utils/htmlTemplate.ts:217-235 | `wordCount` stays within the tokens after any number of pages |
| Engine.LayoutShape | src/utils/htmlTemplate.ts:219-236 | the pages joined in order are a prefix of the tokens: no reordering, no duplication |
| Engine.LayoutPage | src/utils/htmlTemplate.ts:219-236 | page k is the contiguous run of tokens from where page k-1 stopped, and it is what one fill pass from there gives |
| Engine.PagesFit | src/utils/htmlTemplate.ts:224-235 | every page fits the page height, and a page that stopped early stopped at the token that would overflow it |
| Engine.PageStartsMonotone | src/utils/htmlTemplate.ts:217-235 | `wordCount` never decreases from one page to the next |
| Engine.OversizedTokenStalls | src/utils/htmlTemplate.ts:224-235 | a token taller than the page is taken back at once: every page is empty and `wordCount` never moves |
| Engine.TrailingTokenDropped | src/utils/htmlTemplate.ts:212-238 | with 400 px per character, "a b" measures two pages that hold "a" and " ", so "b" is never captured |
| Engine.StyledIdempotent | src/utils/htmlTemplate.ts:134-171 | applying the same configuration twice equals applying it once, and the lines, margin and overlay classes it leaves do not depend on the classes before |
| Engine.StyledDefaults | src/utils/htmlTemplate.ts:139-170 | an empty configuration keeps font and ink, adds `lines` and `margined`, and leaves the overlay plain |
| Engine.UnstyledKeepsPaper | src/utils/htmlTemplate.ts:173-177 | after `removePaperStyles` the overlay is plain, border and scroll are back, and the lines, margin, font and ink from the configuration remain |
| Engine.Captures | src/utils/htmlTemplate.ts:252-270 | one image per page, in page order |
| Engine.Generated | src/utils/htmlTemplate.ts:212-250 | `totalPages` images when the text measures more than one page, else one image of the whole text; every image carries the configured style and is contrasted iff the effect is scanner |
| Engine.GeneratedContent | src/utils/htmlTemplate.ts:212-238 | after a one-page text the surface shows the text; after a longer one it shows the last page, the run of tokens from where the second-to-last page stopped, which fits the page height |
| Engine.GeneratedPagesFit | src/utils/htmlTemplate.ts:224-235 | every captured page of a text cut into pages fits the page height |
| Engine.Surface.constructor | src/utils/htmlTemplate.ts:115-126 | the markup's initial state: lines and margin on, plain overlay, empty content |
| Engine.Surface.ApplyPaperStyles | src/utils/htmlTemplate.ts:134-171 | the new style is `Styled(old style, config)`; content and posted messages are unchanged |
| Engine.Surface.RemovePaperStyles | src/utils/htmlTemplate.ts:173-177 | the new style is `Unstyled(old style)`; content and posted messages are unchanged |
| Engine.Surface.CapturePage | src/utils/htmlTemplate.ts:252-270 | exactly one image of the current content and style is appended, contrasted iff the effect is scanner |
| Engine.Surface.FillOnePage | src/utils/htmlTemplate.ts:220-235 | one pass of the while loop and its backtrack: the content is the tokens from `wordCount` to `FillPage` |
| Engine.Surface.CapturePages | src/utils/htmlTemplate.ts:219-238 | the images are the captures of `Layout` over `totalPages` pages, in order; the content is the last page |
| Engine.Surface.GenerateImages | src/utils/htmlTemplate.ts:191-250 | the images are `Generated(text, config, old style)`: the captures of the layout when there is more than one page, otherwise one capture of the whole text; the content left is `GeneratedContent`; the style is reset afterwards; exactly one `SUCCESS` carrying the images is posted |
| Engine.Surface.HandleMessage | src/utils/htmlTemplate.ts:276-285 | a parsed `GENERATE` posts exactly one `SUCCESS` carrying `Generated` of its text and config, leaves `GeneratedContent` on the surface and resets the style; anything else changes nothing |
| Errors.NewAppError | src/utils/errorUtils.ts:65-80 | the code, context and original error are kept; the message is the given one when non-empty, else the table entry |
| Errors.GetUserMessage | src/utils/errorUtils.ts:85-87 | always the table entry for the code |
| Errors.ToAppError | src/utils/errorUtils.ts:125-134 | an `AppError` is returned unchanged; an `Error` becomes `UNKNOWN` with its message and `originalError`; any other value becomes `UNKNOWN` with `String(value)` |
| Errors.AlertFor | src/utils/errorUtils.ts:113-154 | an alert is shown iff `showAlert` (default true, whether the key is missing or `undefined`) holds and the code is not `CANCELLED`; its title defaults to 'Error'; its text is `alertMessage` when non-empty, else the user message |
| Errors.HandleError | src/utils/errorUtils.ts:110-160 | the returned error is the converted one; the alert follows the rule; `onError`, when supplied, is called exactly once, with the returned error |
| Errors.CreateError | src/utils/errorUtils.ts:165-177 | the code is kept, and the message falls back to the table entry |
| Errors.IsErrorCodeMatchesHandled | src/utils/errorUtils.ts:125-184 | `isErrorCode(e, c)` implies `handleError` reports code c; a thrown `AppError` answers for the code `handleError` reports; anything else answers for no code and is reported as `UNKNOWN`; an error from `createError(c)` answers for c and no other code |
| Errors.TryCatchOptions | src/utils/errorUtils.ts:198 | `showAlert` defaults to false when the caller's options lack the key; a caller's `showAlert`, an explicit `undefined` included, overrides it; the other options pass through |
| Errors.TryCatch | src/utils/errorUtils.ts:190-201 | success gives `[result, null]`; failure gives `[null, e]`, where e is what `handleError` returns with the merged options |
| Errors.TryCatchAlertRule | src/utils/errorUtils.ts:190-201 | without a `showAlert` key from the caller, a failure shows no alert; with `showAlert: true` or an explicit `showAlert: undefined`, it alerts iff the code is not `CANCELLED` |
| Errors.EmptyErrorMessageFallsBack | src/utils/errorUtils.ts:127-131 | an `Error` with an empty message reports the `UNKNOWN` table text and keeps the original error |
| Home.NextDecision | src/screens/HomeScreen.tsx:123-155 | the large-text outcome reports the text's own length, which is over 50000, and the page estimate `ceil(length / 2000)` |
| Home.AfterLargeText | src/screens/HomeScreen.tsx:143-150 | only 'Proceed Anyway' navigates, and it navigates with the text |
| Home.NextGates | src/screens/HomeScreen.tsx:123-155 | the gates in order: Loading iff not ready; No Text iff ready and blank; the warning iff ready, not blank and over the limit; navigation with the text iff ready, not blank and within the limit |
| Home.ExactLimitNavigates | src/screens/HomeScreen.tsx:138 | a non-blank text of exactly 50000 characters navigates directly |
| Home.EnabledNextPassesGates | src/screens/HomeScreen.tsx:295-299 | Next is enabled iff ready and not blank, and an enabled Next never meets the first two gates |
| Home.CounterColorFor | src/screens/HomeScreen.tsx:277-282 | red iff over 50000, orange iff over 40000 and at most 50000, tertiary iff at most 40000 |
| Home.CounterAgreesWithGates | src/screens/HomeScreen.tsx:277-284 | the ' / 50,000' suffix shows iff the counter is coloured; the counter is red iff Next would show the large-text warning |
| Home.ClassifyPdfError | src/screens/HomeScreen.tsx:79-99 | each named code gets its own alert, and `PDFJS_NOT_LOADED` and `LIBRARY_NOT_LOADED` share one (each an if-and-only-if) |
| Home.UnknownCodesAreGeneric | src/screens/HomeScreen.tsx:97-98 | an absent code, and any code outside the five named ones, gets the generic alert |
| Home.ToggleTheme | src/screens/HomeScreen.tsx:157-160 | the result is never system, and it is dark iff the mode was light |
| Home.ToggleTwice | src/screens/HomeScreen.tsx:157-160 | two toggles return light or dark to itself; system goes to light and then dark |
| Home.HomeScreen.constructor | src/screens/HomeScreen.tsx:30-32 | empty text, not extracting, no timer |
| Home.HomeScreen.HandlePdfTextExtracted | src/screens/HomeScreen.tsx:46-67 | the timer is cleared and extraction ends; blank text leaves `text` alone with 'No Text Found', other text replaces it with 'Success' |
| Home.HomeScreen.HandlePdfError | src/screens/HomeScreen.tsx:69-100 | the timer is cleared, extraction ends, and one alert follows the classification of the code |
| Home.HomeScreen.ExtractTextWithTimeout | src/screens/HomeScreen.tsx:109-121 | the timer is armed and the payload is handed to extraction |
| Home.HomeScreen.OnExtractionTimeout | src/screens/HomeScreen.tsx:111-118 | the timer firing ends extraction with the timeout alert |
| Home.HomeScreen.HandleImportPdf | src/screens/HomeScreen.tsx:162-200 | not ready: one alert and nothing else; cancel or no document: nothing changes; a read failure ends extraction with 'File Error'; another picker failure ends it with 'Import Failed'; a good read starts a timed extraction of the payload |
| Output.LowerRunEnd | src/screens/OutputScreen.tsx:46 | the greedy `[a-z]+`: the run is all lower-case, and the next character is not |
| Output.StripImageHeader | src/screens/OutputScreen.tsx:46 | the result is a suffix of the input |
| Output.StripImageRoundTrip | src/screens/OutputScreen.tsx:46 | `data:image/<t>;base64,<d>`, with t lower-case letters, strips to exactly d |
| Output.StripImageOnlyHeader | src/screens/OutputScreen.tsx:86 | a string that is changed was such a data URL, and what is left is its data; any other string is returned unchanged |
| Output.AfterLastComma | src/screens/OutputScreen.tsx:111 | `split(',').pop()`: a comma-free suffix preceded by a comma, or the whole string when it has no comma |
| Output.RemoveSpaces | src/screens/OutputScreen.tsx:111 | `replace(/\s/g, '')`: no whitespace left, no character added, and whitespace-free input unchanged |
| Output.CleanPdf | src/screens/OutputScreen.tsx:111 | the cleaned payload has no comma and no whitespace |
| Output.CleanPdfAfterHeader | src/screens/OutputScreen.tsx:111 | whatever header precedes the last comma, the payload after it comes out with its whitespace removed |
| Output.CleanPdfRoundTrip | src/screens/OutputScreen.tsx:111 | `data:application/pdf;base64,<d>`, with d free of commas and whitespace, cleans to exactly d |
| Output.CleanPdfIdempotent | src/screens/OutputScreen.tsx:111 | cleaning a cleaned payload changes nothing |
| Output.FallbackCarriesCleanedPayload | src/screens/OutputScreen.tsx:172-174 | the fallback data URL carries the same cleaned payload the save path would write |
| Output.ImageFileNamesDistinct | src/screens/OutputScreen.tsx:44 | within one timestamp, different page indices give different image file names |
| Output.ImageAndPdfNamesDiffer | src/screens/OutputScreen.tsx:117 | an image file and a PDF file never share a name |
| Output.DownloadDir | src/screens/OutputScreen.tsx:82-84 | Downloads iff Android, otherwise Documents, never the cache |
| Output.OutputScreen.constructor | src/screens/OutputScreen.tsx:25-26 | no images, loading |
| Output.OutputScreen.HandleImagesGenerated | src/screens/OutputScreen.tsx:38-41 | the images become exactly the list received, and loading ends |
| Output.OutputScreen.HandleShare | src/screens/OutputScreen.tsx:51-63 | the stripped image is written to `handwriting_<ts>_<index>.jpg` in the cache and that file is shared as JPEG; a failed write changes nothing |
| Output.OutputScreen.HandleDownload | src/screens/OutputScreen.tsx:65-99 | below Android API 29 a refused permission stops with one alert; otherwise the stripped image goes to the download directory, followed by a toast (Android) or an alert, or by the error alert when the write fails |
| Output.OutputScreen.FallbackShare | src/screens/OutputScreen.tsx:166-181 | the data URL of the cleaned input is shared when there is an input; a missing input or a failed share ends with 'Failed to save PDF.' |
| Output.OutputScreen.CopyOrSharePdf | src/screens/OutputScreen.tsx:125-164 | a successful copy writes the cleaned payload to Downloads or Documents with the matching alert; a failed copy shares the cached file, and a failed share of it falls back to the data URL |
| Output.OutputScreen.HandlePdfGenerated | src/screens/OutputScreen.tsx:101-183 | a missing or empty input, an empty cleaned payload and a failed cache write all go to the fallback share and write nothing; otherwise the cleaned payload is cached as `handwriting_<ts>.pdf` and then copied or shared |
| Output.WrittenPdfIsClean | src/screens/OutputScreen.tsx:111-123 | every PDF the flow writes is non-empty, free of commas and whitespace, and already clean |
| Output.EmptyPayloadSharesBareHeader | src/screens/OutputScreen.tsx:172-174 | an input that cleans to nothing is still shared, as the bare `data:application/pdf;base64,` URL |
| Stepper.Decrement | src/components/ControlRow.tsx:33-35 | the result is at least `min`, at least `value - step`, and one of the two |
| Stepper.Increment | src/components/ControlRow.tsx:37-39 | the result is at most `max`, at most `value + step`, and one of the two |
| Stepper.StaysInRange | src/components/ControlRow.tsx:33-39 | from a value in [min, max] with a non-negative step, both buttons stay in [min, max] |
| Stepper.FixedAtBounds | src/components/ControlRow.tsx:33-39 | at `min` the decrement returns `min`; at `max` the increment returns `max` |
| Stepper.ExactAwayFromBounds | src/components/ControlRow.tsx:33-39 | away from the bounds the step is taken exactly |
| Stepper.Monotone | src/components/ControlRow.tsx:33-39 | decrement never raises a value and increment never lowers one; both are monotone in the value |
| Stepper.UndoUnclamped | src/components/ControlRow.tsx:33-39 | an unclamped decrement is undone by an increment, and the other way round |

## Left out

- JSON serialisation, `JSON.parse` and script injection. A message is
  dispatched as a value; an unparseable one is `None`.
- The chunk receiver and the `WEBVIEW_READY` emitter. Neither exists in the
  page script. `PdfTransfer.Received` states what any in-order receiver
  rebuilds.
- The waits between chunks in `extractTextFromPDF`. The chunk stream is
  modelled as one ordered sequence of sends in a fixed send mode, so a
  connectivity or readiness change between two chunks is not modelled.
- React's asynchronous effect scheduling and stale closures. State setters
  and effects run as explicit sequential steps: the flush effect runs right
  after the handlers have seen the `WEBVIEW_READY` message.
- Engine.Surface.HandleMessage: the page script registers its listener on
  both `document` and `window` (src/utils/htmlTemplate.ts:273-274). A message
  that reaches both listeners, and so starts two generations, is not
  modelled. One call of the method is one listener invocation.
- Bridge.Deliveries, Bridge.DeliveredOnceEach: handlers are assumed not to
  throw. In the host's `handleMessage` the `forEach` runs inside a
  `try`/`catch` (src/context/WebViewContext.tsx:122-137). A handler that throws
  therefore ends the loop, the error is swallowed, and the later handlers are
  skipped. The model always reaches every handler.
- The hook wrappers `updatePreview`, `generateImage` and `downloadPDF`. Each
  is a single `sendMessage` of one `Outgoing` value, which is
  `Bridge.Host.Send`.
- The per-hook handler ids built from `Date.now()`. The registry takes ids as
  arguments.
- The NetInfo subscription. Connectivity is set through
  `Bridge.Host.SetConnectivity`.
- The WebView ref. Whether it is set is `Bridge.Host.SetMounted`.
- html2canvas, `toDataURL`, `document.fonts.ready` and `contrastImage`.
  These are rendering and floating-point pixel arithmetic. A capture is an
  opaque image of the page's text and style, flagged when the scanner
  contrast applies.
- The random gradient angle of the scanner and shadows effects. Only the
  overlay's `shadows` class is modelled.
- The DOM measurement. It is an abstract function `height` of the page's
  text, assumed only to fit the empty page.
- `MAX_PAGINATION_ITERATIONS`. The page loop does not use it.
- The file system, the share sheet, the document picker and the permission
  dialog. They are outcome parameters (`writeOk`, `PdfIo`, `PickOutcome`,
  `ReadOutcome`, `granted`). A file is its base64 text under a path.
- Output.OutputScreen.HandleShare: a failed share after a successful write is
  only logged by the source. The model records the share request either way.
- The 30-second extraction timer and the 1-second generation delay of the
  output screen. The timer is a flag plus the explicit event
  `Home.HomeScreen.OnExtractionTimeout`.
- The `useEffect` cleanup that clears the timer on unmount.
- Navigation. It appears only as the `Navigate` outcome of `Home.NextDecision`
  and `Home.AfterLargeText`.
- Stepper.Decrement: values, steps and bounds are integers counting tenths,
  so the rounding of `Number(x.toFixed(1))` is the identity and is not
  modelled. This is exact for the steps the styling screen uses, 1 and 0.5.
- The same clamp written out again in the styling screen, and the
  handwriting generator component. Both are outside this model.
- Console logging and the `__DEV__` switch.
- The alert texts. They are named by constructors, not stored as strings.
- Text lengths. JavaScript's `length` counts UTF-16 code units; the model
  counts characters of a Dafny string.
- Absent versus `null` values. JSON `null` and a missing field are both
  `None`.
- The exact decimal rendering of `toLocaleString` in the counter and alert
  texts.
