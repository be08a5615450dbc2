/**
 * Error classification of the current backend: what `errorInfo` makes of a
 * thrown value, and the `errorHandlerFunc` wrapper that every repository
 * and service call runs in.
 */
module ErrorHandlerProvider {
  import opened Results

  /** What a call can throw: a Joi `ValidationError`, a `CustomError` with
      its own status, any other `Error`, or a value that is not an Error. */
  datatype Thrown =
    | JoiValidationError(message: string)
    | CustomError(status: int, message: string)
    | PlainError(message: string)
    | NonError

  /** `{ statusError, messageError }`. */
  datatype ErrorInfo = ErrorInfo(status: int, message: string)

  /** The result of running an async function: its value or what it threw. */
  datatype Outcome<+T> = Returned(value: T) | Threw(error: Thrown)

  /** `errorInfo`: Joi errors are client errors, CustomErrors keep their
      status, other Errors and non-Errors are server errors. */
  function ErrorInfoOf(e: Thrown): (r: ErrorInfo)
    ensures e.JoiValidationError? ==> r == ErrorInfo(BadRequest, e.message)
    ensures e.CustomError? ==> r == ErrorInfo(e.status, e.message)
    ensures e.PlainError? ==> r == ErrorInfo(InternalServerError, e.message)
    ensures e.NonError? ==> r == ErrorInfo(InternalServerError, "Internal Server Error")
  {
    match e
    case JoiValidationError(m) => ErrorInfo(BadRequest, m)
    case CustomError(s, m) => ErrorInfo(s, m)
    case PlainError(m) => ErrorInfo(InternalServerError, m)
    case NonError => ErrorInfo(InternalServerError, "Internal Server Error")
  }

  /** `errorHandlerFunc`: a returned value passes through unchanged; any
      thrown value is rethrown as a CustomError carrying `errorInfo`'s pair. */
  function HandlerFunc<T>(o: Outcome<T>): (r: Outcome<T>)
    ensures o.Returned? ==> r == o
    ensures o.Threw? ==> r.Threw? && r.error.CustomError?
    ensures o.Threw? ==> ErrorInfoOf(r.error) == ErrorInfoOf(o.error)
  {
    match o
    case Returned(_) => o
    case Threw(e) =>
      var info := ErrorInfoOf(e);
      Threw(CustomError(info.status, info.message))
  }

  /** Wrapping an already wrapped call changes nothing, which is why the
      nested wrappers of repository, service and provider calls report the
      innermost classification. */
  lemma HandlerFuncIdempotent<T>(o: Outcome<T>)
    ensures HandlerFunc(HandlerFunc(o)) == HandlerFunc(o)
  {
  }

  /** The failure a wrapped call reports, as a `Result`. */
  function ToResult<T>(o: Outcome<T>): (r: Result<T>)
    ensures o.Returned? <==> r.Ok?
    ensures o.Threw? ==> r.status == ErrorInfoOf(o.error).status && r.message == ErrorInfoOf(o.error).message
  {
    match o
    case Returned(v) => Ok(v)
    case Threw(e) => Err(ErrorInfoOf(e).status, ErrorInfoOf(e).message)
  }
}
