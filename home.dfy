/** The decisions of the home screen (src/screens/HomeScreen.tsx): the gates of
    the Next button, the character counter, the classification of PDF errors,
    the theme toggle, and the state kept while a PDF's text is extracted.
    Alerts, navigation and the extraction request are recorded as values; the
    document picker and the file read are outcomes passed in. */
module Home {
  import opened Common

  /** `MAX_TEXT_LENGTH`, `CHARS_PER_PAGE_ESTIMATE` and
      `TEXT_LENGTH_WARNING_THRESHOLD` (`MAX_TEXT_LENGTH * 0.8`) of
      src/utils/constants.ts. */
  const MaxTextLength: nat := 50000
  const CharsPerPageEstimate: nat := 2000
  const WarningThreshold: nat := 40000

  // ------------------------------------------------------------------
  // The Next button
  // ------------------------------------------------------------------

  datatype NextOutcome =
    | Loading                                   // 'Loading'
    | NoText                                    // 'No Text'
    | LargeText(length: nat, estimatedPages: nat) // 'Large Text Detected'
    | Navigate(text: string)                    // to 'Styling' with the text

  /** `handleNext`: readiness first, then a blank text, then the length
      limit; only then navigation. */
  function NextDecision(ready: bool, text: string): (o: NextOutcome)
    ensures o.LargeText? ==> o.length == |text|
    ensures o.LargeText? ==> o.length > MaxTextLength && o.estimatedPages > MaxTextLength / CharsPerPageEstimate
    ensures o.LargeText? ==>
      (o.estimatedPages - 1) * CharsPerPageEstimate < o.length <= o.estimatedPages * CharsPerPageEstimate
  {
    if !ready then Loading
    else if Trim(text) == "" then NoText
    else if |text| > MaxTextLength then LargeText(|text|, CeilDiv(|text|, CharsPerPageEstimate))
    else Navigate(text)
  }

  /** The two buttons of the 'Large Text Detected' alert. */
  datatype LargeTextChoice = Cancel | ProceedAnyway

  /** Where the alert's buttons lead: 'Proceed Anyway' navigates with the
      text, 'Cancel' nowhere. */
  function AfterLargeText(choice: LargeTextChoice, text: string): (target: Option<string>)
    ensures target.Some? <==> choice == ProceedAnyway
    ensures target.Some? ==> target.value == text
  {
    if choice == ProceedAnyway then Some(text) else None
  }

  /** The gates in order: navigation happens with the text itself exactly
      when the generator is ready, the text is not blank and it is within the
      limit; a text over the limit only ever reaches the warning. */
  lemma NextGates(ready: bool, text: string)
    ensures NextDecision(ready, text) == Loading <==> !ready
    ensures NextDecision(ready, text) == NoText <==> ready && IsBlank(text)
    ensures NextDecision(ready, text).LargeText? <==> ready && !IsBlank(text) && |text| > MaxTextLength
    ensures NextDecision(ready, text).Navigate? <==> ready && !IsBlank(text) && |text| <= MaxTextLength
    ensures NextDecision(ready, text).Navigate? ==> NextDecision(ready, text).text == text
  {
    TrimEmptyIffBlank(text);
  }

  /** The comparison is strict: a text of exactly the limit navigates. */
  lemma ExactLimitNavigates(text: string)
    requires |text| == MaxTextLength && !IsBlank(text)
    ensures NextDecision(true, text) == Navigate(text)
  {
    TrimEmptyIffBlank(text);
  }

  /** `disabled={!text.trim() || !isGeneratorReady}`. */
  predicate NextDisabled(ready: bool, text: string)
  {
    Trim(text) == "" || !ready
  }

  /** An enabled Next button never meets the first two gates. */
  lemma EnabledNextPassesGates(ready: bool, text: string)
    ensures !NextDisabled(ready, text) <==> ready && !IsBlank(text)
    ensures !NextDisabled(ready, text) ==> NextDecision(ready, text).LargeText? || NextDecision(ready, text).Navigate?
  {
    TrimEmptyIffBlank(text);
  }

  // ------------------------------------------------------------------
  // The character counter
  // ------------------------------------------------------------------

  datatype CounterColor = Red | Orange | Tertiary

  function CounterColorFor(length: nat): (c: CounterColor)
    ensures c == Red <==> length > MaxTextLength
    ensures c == Orange <==> WarningThreshold < length <= MaxTextLength
    ensures c == Tertiary <==> length <= WarningThreshold
  {
    if length > MaxTextLength then Red
    else if length > WarningThreshold then Orange
    else Tertiary
  }

  /** Whether the ` / 50,000` suffix is shown. */
  predicate ShowsLimit(length: nat)
  {
    length > WarningThreshold
  }

  /** The suffix appears exactly when the counter is coloured, and a red
      counter is exactly a text that `handleNext` holds back with the
      warning. */
  lemma CounterAgreesWithGates(text: string)
    requires !IsBlank(text)
    ensures ShowsLimit(|text|) <==> CounterColorFor(|text|) != Tertiary
    ensures CounterColorFor(|text|) == Red <==> NextDecision(true, text).LargeText?
  {
    NextGates(true, text);
  }

  // ------------------------------------------------------------------
  // PDF errors and the theme
  // ------------------------------------------------------------------

  datatype PdfAlert =
    | PasswordProtected     // 'Password Protected'
    | InvalidPdf            // 'Invalid PDF'
    | InitializationFailed  // 'Initialization Failed'
    | ExtractionFailed      // 'Extraction Failed'
    | GenericFailure        // 'Error'

  /** The `switch (code)` of `handlePdfError`. */
  function ClassifyPdfError(code: Option<string>): (a: PdfAlert)
    ensures a == PasswordProtected <==> code == Some("PDF_PASSWORD_PROTECTED")
    ensures a == InvalidPdf <==> code == Some("PDF_INVALID")
    ensures a == InitializationFailed <==> code == Some("PDFJS_NOT_LOADED") || code == Some("LIBRARY_NOT_LOADED")
    ensures a == ExtractionFailed <==> code == Some("PDF_EXTRACT_ERROR")
  {
    match code
    case None => GenericFailure
    case Some(c) =>
      if c == "PDF_PASSWORD_PROTECTED" then PasswordProtected
      else if c == "PDF_INVALID" then InvalidPdf
      else if c == "PDFJS_NOT_LOADED" || c == "LIBRARY_NOT_LOADED" then InitializationFailed
      else if c == "PDF_EXTRACT_ERROR" then ExtractionFailed
      else GenericFailure
  }

  /** A missing code and every code outside the five named ones get the
      generic alert. */
  lemma UnknownCodesAreGeneric(code: Option<string>)
    requires code !in {Some("PDF_PASSWORD_PROTECTED"), Some("PDF_INVALID"), Some("PDFJS_NOT_LOADED"),
                       Some("LIBRARY_NOT_LOADED"), Some("PDF_EXTRACT_ERROR")}
    ensures ClassifyPdfError(code) == GenericFailure
  {
  }

  datatype ThemeMode = Light | Dark | System

  /** `toggleTheme`: light becomes dark, dark and system become light. */
  function ToggleTheme(mode: ThemeMode): (next: ThemeMode)
    ensures next != System
    ensures next == Dark <==> mode == Light
  {
    if mode == Light then Dark else Light
  }

  /** Two toggles return to light or dark; system is left for good, through
      light to dark. */
  lemma ToggleTwice(mode: ThemeMode)
    ensures mode != System ==> ToggleTheme(ToggleTheme(mode)) == mode
    ensures mode == System ==> ToggleTheme(mode) == Light && ToggleTheme(ToggleTheme(mode)) == Dark
  {
  }

  // ------------------------------------------------------------------
  // The screen's state during PDF import
  // ------------------------------------------------------------------

  datatype HomeAlert =
    | LoadingAlert       // 'Loading'
    | NoTextFound        // 'No Text Found'
    | ExtractSuccess     // 'Success'
    | PdfErrorAlert(kind: PdfAlert)
    | ExtractionTimeout  // 'Extraction Timeout'
    | FileError          // 'File Error'
    | ImportFailed       // 'Import Failed'

  /** What `DocumentPicker.pick` gave: a first document, a result without
      one, a cancellation, or another failure. */
  datatype PickOutcome = Picked(uri: string) | PickedNothing | PickCancelled | PickFailed

  /** What `RNFS.readFile(uri, 'base64')` gave. */
  datatype ReadOutcome = ReadOk(base64: string) | ReadFailed

  class HomeScreen {
    var text: string
    var isExtracting: bool
    /** Whether `extractionTimeoutRef` holds a live 30-second timer. */
    var timeoutArmed: bool
    var alerts: seq<HomeAlert>
    /** The payloads handed to `extractTextFromPDF`, in order. */
    var extractions: seq<string>

    constructor()
      ensures text == "" && !isExtracting && !timeoutArmed && alerts == [] && extractions == []
    {
      text := "";
      isExtracting := false;
      timeoutArmed := false;
      alerts := [];
      extractions := [];
    }

    /** `handlePdfTextExtracted`: the timer is cleared and extraction ends;
        blank text leaves `text` alone with 'No Text Found', other text
        replaces it. */
    method HandlePdfTextExtracted(extracted: string)
      modifies this`text, this`isExtracting, this`timeoutArmed, this`alerts
      ensures !timeoutArmed && !isExtracting
      ensures IsBlank(extracted) ==> text == old(text) && alerts == old(alerts) + [NoTextFound]
      ensures !IsBlank(extracted) ==> text == extracted && alerts == old(alerts) + [ExtractSuccess]
    {
      timeoutArmed := false;
      isExtracting := false;
      TrimEmptyIffBlank(extracted);
      if extracted == "" || Trim(extracted) == "" {
        alerts := alerts + [NoTextFound];
        return;
      }
      text := extracted;
      alerts := alerts + [ExtractSuccess];
    }

    /** `handlePdfError`: the timer is cleared, extraction ends and the alert
        follows the code. */
    method HandlePdfError(error: string, code: Option<string>)
      modifies this`isExtracting, this`timeoutArmed, this`alerts
      ensures !timeoutArmed && !isExtracting
      ensures alerts == old(alerts) + [PdfErrorAlert(ClassifyPdfError(code))]
    {
      timeoutArmed := false;
      isExtracting := false;
      alerts := alerts + [PdfErrorAlert(ClassifyPdfError(code))];
    }

    /** `extractTextWithTimeout`: arm the timer, then request extraction. */
    method ExtractTextWithTimeout(base64: string)
      modifies this`timeoutArmed, this`extractions
      ensures timeoutArmed && extractions == old(extractions) + [base64]
    {
      timeoutArmed := true;
      extractions := extractions + [base64];
    }

    /** The timer firing before any answer. */
    method OnExtractionTimeout()
      requires timeoutArmed
      modifies this`isExtracting, this`timeoutArmed, this`alerts
      ensures !isExtracting && !timeoutArmed
      ensures alerts == old(alerts) + [ExtractionTimeout]
    {
      timeoutArmed := false;
      isExtracting := false;
      alerts := alerts + [ExtractionTimeout];
    }

    /** `handleImportPdf`: not ready, an alert and no picker; a cancelled or
        empty pick changes nothing; a read failure ends extraction with
        'File Error'; another picker failure ends it with 'Import Failed'. */
    method HandleImportPdf(ready: bool, pick: PickOutcome, read: ReadOutcome)
      modifies this`isExtracting, this`timeoutArmed, this`alerts, this`extractions
      ensures !ready ==>
        alerts == old(alerts) + [LoadingAlert] && isExtracting == old(isExtracting) &&
        timeoutArmed == old(timeoutArmed) && extractions == old(extractions)
      ensures ready && (pick == PickCancelled || pick == PickedNothing) ==>
        alerts == old(alerts) && isExtracting == old(isExtracting) &&
        timeoutArmed == old(timeoutArmed) && extractions == old(extractions)
      ensures ready && pick == PickFailed ==>
        alerts == old(alerts) + [ImportFailed] && !isExtracting &&
        timeoutArmed == old(timeoutArmed) && extractions == old(extractions)
      ensures ready && pick.Picked? && read == ReadFailed ==>
        alerts == old(alerts) + [FileError] && !isExtracting &&
        timeoutArmed == old(timeoutArmed) && extractions == old(extractions)
      ensures ready && pick.Picked? && read.ReadOk? ==>
        alerts == old(alerts) && isExtracting &&
        timeoutArmed && extractions == old(extractions) + [read.base64]
    {
      if !ready {
        alerts := alerts + [LoadingAlert];
        return;
      }
      match pick
      case Picked(_) =>
        isExtracting := true;
        match read {
          case ReadOk(base64) =>
            ExtractTextWithTimeout(base64);
          case ReadFailed =>
            isExtracting := false;
            alerts := alerts + [FileError];
        }
      case PickedNothing =>
      case PickCancelled =>
      case PickFailed =>
        isExtracting := false;
        alerts := alerts + [ImportFailed];
    }
  }
}
