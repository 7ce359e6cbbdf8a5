/** The application's error taxonomy (src/utils/errorUtils.ts): a closed set of
    error codes with a total table of user messages, the `AppError` value, and
    the conversions `handleError`, `createError`, `isErrorCode` and `tryCatch`.
    The alert, the console log and the `onError` callback are side outputs and
    are returned as values. */
module Errors {
  import opened Common

  datatype ErrorCode =
    | NetworkOffline | NetworkTimeout | NetworkRequestFailed
    | FileReadFailed | FileWriteFailed | FileNotFound | PermissionDenied
    | PdfInvalid | PdfPasswordProtected | PdfExtractionFailed
    | WebViewError | WebViewCrash | GenerationFailed | LibraryNotLoaded
    | Unknown | Cancelled

  /** `ERROR_MESSAGES`: the user-facing text of every code. */
  function UserMessage(code: ErrorCode): string
  {
    match code
    case NetworkOffline => "No internet connection. Please check your network settings."
    case NetworkTimeout => "The request timed out. Please try again."
    case NetworkRequestFailed => "Network request failed. Please try again."
    case FileReadFailed => "Failed to read the file. Please try again."
    case FileWriteFailed => "Failed to save the file. Please try using the Share option."
    case FileNotFound => "The file could not be found."
    case PermissionDenied => "Permission denied. Please enable the required permission in Settings."
    case PdfInvalid => "The PDF file appears to be invalid or corrupted."
    case PdfPasswordProtected => "This PDF is password protected and cannot be processed."
    case PdfExtractionFailed => "Failed to extract text from PDF. Please try a different file."
    case WebViewError => "An error occurred in the generator. Please try again."
    case WebViewCrash => "The generator crashed unexpectedly. Restarting..."
    case GenerationFailed => "Failed to generate handwriting. Please try again."
    case LibraryNotLoaded => "Required resources are still loading. Please wait and try again."
    case Unknown => "An unexpected error occurred. Please try again."
    case Cancelled => "Operation was cancelled."
  }

  /** A plain JavaScript `Error` (only its message matters here). */
  datatype JsError = JsError(message: string)

  /** The optional logging context; its values are modelled as their text. */
  type Context = map<string, string>

  datatype AppError = AppError(
    code: ErrorCode,
    message: string,
    context: Option<Context>,
    originalError: Option<JsError>)

  /** A thrown value of unknown type: an `AppError`, another `Error`, or any
      other value together with what `String(value)` gives for it. */
  datatype Thrown =
    | ThrownAppError(appError: AppError)
    | ThrownError(error: JsError)
    | ThrownValue(asString: string)

  /** `new AppError(code, message, options)`: an absent or empty message falls
      back to the table entry for the code. */
  function NewAppError(code: ErrorCode, message: Option<string>, context: Option<Context>,
                       originalError: Option<JsError>): (e: AppError)
    ensures e.code == code && e.context == context && e.originalError == originalError
    ensures Truthy(message) ==> e.message == message.value
    ensures !Truthy(message) ==> e.message == UserMessage(code)
  {
    AppError(code, if Truthy(message) then message.value else UserMessage(code), context, originalError)
  }

  /** `getUserMessage()`: always the table entry, whatever the stored message. */
  function GetUserMessage(e: AppError): (m: string)
    ensures m == UserMessage(e.code)
  {
    UserMessage(e.code)
  }

  /** The `showAlert` key of an options object: left out, present with the
      value `undefined`, or given. Object spread tells the first two apart;
      a destructuring default does not. */
  datatype ShowAlert = Absent | Undefined | Given(show: bool)

  /** The options of `handleError`; `None` is an option the caller left out
      or set to `undefined`. `hasOnError` says whether an `onError` callback
      was supplied. */
  datatype HandleErrorOptions = HandleErrorOptions(
    showAlert: ShowAlert,
    alertTitle: Option<string>,
    alertMessage: Option<string>,
    context: Option<Context>,
    hasOnError: bool)

  const NoOptions := HandleErrorOptions(Absent, None, None, None, false)

  datatype AlertBox = AlertBox(title: string, text: string)

  /** What one call of `handleError` does: the error it returns, the alert it
      shows (if any) and the errors it hands to `onError`, in call order. */
  datatype Handled = Handled(error: AppError, alert: Option<AlertBox>, onErrorCalls: seq<AppError>)

  /** Conversion step of `handleError`. */
  function ToAppError(thrown: Thrown, context: Option<Context>): (e: AppError)
    ensures thrown.ThrownAppError? ==> e == thrown.appError
    ensures thrown.ThrownError? ==>
      e == NewAppError(Unknown, Some(thrown.error.message), context, Some(thrown.error))
    ensures thrown.ThrownValue? ==> e == NewAppError(Unknown, Some(thrown.asString), context, None)
    ensures !thrown.ThrownAppError? ==> e.code == Unknown && e.context == context
  {
    match thrown
    case ThrownAppError(a) => a
    case ThrownError(err) => NewAppError(Unknown, Some(err.message), context, Some(err))
    case ThrownValue(str) => NewAppError(Unknown, Some(str), context, None)
  }

  /** The alert rule: shown iff `showAlert` (default true, for a missing and
      an `undefined` value alike) and the code is not CANCELLED; its text is a
      truthy `alertMessage`, else the user message. */
  function AlertFor(e: AppError, options: HandleErrorOptions): (a: Option<AlertBox>)
    ensures a.Some? <==> (options.showAlert != Given(false) && e.code != Cancelled)
    ensures a.Some? ==> a.value.title == (if options.alertTitle.Some? then options.alertTitle.value else "Error")
    ensures a.Some? && Truthy(options.alertMessage) ==> a.value.text == options.alertMessage.value
    ensures a.Some? && !Truthy(options.alertMessage) ==> a.value.text == UserMessage(e.code)
  {
    var showAlert := if options.showAlert.Given? then options.showAlert.show else true;
    var title := if options.alertTitle.Some? then options.alertTitle.value else "Error";
    if showAlert && e.code != Cancelled then
      Some(AlertBox(title, if Truthy(options.alertMessage) then options.alertMessage.value else GetUserMessage(e)))
    else None
  }

  /** `handleError(error, options)`. */
  function HandleError(thrown: Thrown, options: HandleErrorOptions): (h: Handled)
    ensures h.error == ToAppError(thrown, options.context)
    ensures thrown.ThrownAppError? ==> h.error == thrown.appError
    ensures h.alert == AlertFor(h.error, options)
    ensures h.onErrorCalls == if options.hasOnError then [h.error] else []
  {
    var e := ToAppError(thrown, options.context);
    Handled(e, AlertFor(e, options), if options.hasOnError then [e] else [])
  }

  /** The options of `createError`. */
  datatype CreateOptions = CreateOptions(message: Option<string>, context: Option<Context>, originalError: Option<JsError>)

  /** `createError(code, options?)`. */
  function CreateError(code: ErrorCode, options: Option<CreateOptions>): (e: AppError)
    ensures e.code == code
    ensures options.None? ==> e == AppError(code, UserMessage(code), None, None)
    ensures options.Some? ==>
      e == NewAppError(code, options.value.message, options.value.context, options.value.originalError)
  {
    match options
    case None => NewAppError(code, None, None, None)
    case Some(o) => NewAppError(code, o.message, o.context, o.originalError)
  }

  /** `isErrorCode(error, code)`. */
  predicate IsErrorCode(thrown: Thrown, code: ErrorCode)
  {
    thrown.ThrownAppError? && thrown.appError.code == code
  }

  /** `isErrorCode` agrees with the conversion `handleError` performs: a
      thrown AppError answers for exactly the code `handleError` reports, an
      error created by `createError` answers for its own code and no other, and
      anything else answers for no code while `handleError` reports UNKNOWN. */
  lemma IsErrorCodeMatchesHandled(thrown: Thrown, code: ErrorCode, options: HandleErrorOptions,
                                  created: ErrorCode, createOptions: Option<CreateOptions>)
    ensures IsErrorCode(thrown, code) ==> HandleError(thrown, options).error.code == code
    ensures thrown.ThrownAppError? ==> IsErrorCode(thrown, HandleError(thrown, options).error.code)
    ensures !thrown.ThrownAppError? ==>
      !IsErrorCode(thrown, code) && HandleError(thrown, options).error.code == Unknown
    ensures IsErrorCode(ThrownAppError(CreateError(created, createOptions)), code) <==> created == code
  {
  }

  /** How the wrapped function of `tryCatch` ended. */
  datatype Settled<T> = Resolved(value: T) | Rejected(reason: Thrown)

  /** The `[result, error]` pair of `tryCatch`, with the side outputs of the
      `handleError` call on the failure path. */
  datatype TryResult<T> = TryResult(result: Option<T>, error: Option<AppError>, handled: Option<Handled>)

  /** `{ showAlert: false, ...errorOptions }`: the spread copies every key
      the caller's object has, an `undefined` one included, over the
      default. */
  function TryCatchOptions(errorOptions: Option<HandleErrorOptions>): (o: HandleErrorOptions)
    ensures errorOptions.None? ==> o == NoOptions.(showAlert := Given(false))
    ensures errorOptions.Some? && errorOptions.value.showAlert != Absent ==> o == errorOptions.value
    ensures errorOptions.Some? && errorOptions.value.showAlert == Absent ==>
      o == errorOptions.value.(showAlert := Given(false))
  {
    match errorOptions
    case None => NoOptions.(showAlert := Given(false))
    case Some(opts) => if opts.showAlert != Absent then opts else opts.(showAlert := Given(false))
  }

  /** `tryCatch(fn, errorOptions)`. */
  function TryCatch<T>(outcome: Settled<T>, errorOptions: Option<HandleErrorOptions>): (r: TryResult<T>)
    ensures outcome.Resolved? ==> r == TryResult(Some(outcome.value), None, None)
    ensures outcome.Rejected? ==>
      && r.result.None?
      && r.handled == Some(HandleError(outcome.reason, TryCatchOptions(errorOptions)))
      && r.error == Some(r.handled.value.error)
  {
    match outcome
    case Resolved(v) => TryResult(Some(v), None, None)
    case Rejected(reason) =>
      var h := HandleError(reason, TryCatchOptions(errorOptions));
      TryResult(None, Some(h.error), Some(h))
  }

  /** Without options, or with options that leave `showAlert` out, a failure
      inside `tryCatch` shows no alert; a caller's `showAlert: true`, and also
      an explicit `showAlert: undefined` (which the spread copies over the
      `false` default and the destructuring default then turns into `true`),
      brings the usual alert rule back. */
  lemma TryCatchAlertRule<T>(reason: Thrown, errorOptions: Option<HandleErrorOptions>)
    ensures var r := TryCatch(Settled<T>.Rejected(reason), errorOptions);
      && (errorOptions.None? || errorOptions.value.showAlert == Absent ==> r.handled.value.alert.None?)
      && (errorOptions.Some? && errorOptions.value.showAlert in {Given(true), Undefined} ==>
            (r.handled.value.alert.Some? <==> ToAppError(reason, errorOptions.value.context).code != Cancelled))
  {
  }

  /** A plain `Error` with an empty message reports the UNKNOWN table text,
      because the AppError constructor treats the empty message as absent. */
  lemma EmptyErrorMessageFallsBack(err: JsError, options: HandleErrorOptions)
    requires err.message == ""
    ensures HandleError(ThrownError(err), options).error.message == UserMessage(Unknown)
    ensures HandleError(ThrownError(err), options).error.originalError == Some(err)
  {
  }
}
