/**
 * Error classification of the older backend (`service/`): the response
 * writer `errorHandlerRes` used by the controllers, and an `errorInfo`
 * that, unlike the current one, has no branch for Joi errors.
 */
module ErrorHandlerService {
  import opened Results
  import opened ErrorHandlerProvider

  /** What `errorHandlerRes` writes: the status and the JSON body
      `{ success: false, error }`. */
  datatype ErrorReply = ErrorReply(status: int, success: bool, error: string)

  /** `errorHandlerRes`: Joi errors are 400, CustomErrors keep their status,
      other Errors are 500 with their message and non-Errors 500 'Internal
      Server Error'; the body always says `success: false`. */
  function ErrorHandlerRes(e: Thrown): (r: ErrorReply)
    ensures !r.success
    ensures e.JoiValidationError? ==> r.status == BadRequest && r.error == e.message
    ensures e.CustomError? ==> r.status == e.status && r.error == e.message
    ensures e.PlainError? ==> r.status == InternalServerError && r.error == e.message
    ensures e.NonError? ==> r.status == InternalServerError && r.error == "Internal Server Error"
  {
    match e
    case JoiValidationError(m) => ErrorReply(BadRequest, false, m)
    case CustomError(s, m) => ErrorReply(s, false, m)
    case PlainError(m) => ErrorReply(InternalServerError, false, m)
    case NonError => ErrorReply(InternalServerError, false, "Internal Server Error")
  }

  /** `errorInfo` of the older backend: a Joi error is only an Error here. */
  function LegacyErrorInfo(e: Thrown): (r: ErrorInfo)
    ensures e.CustomError? ==> r == ErrorInfo(e.status, e.message)
    ensures !e.CustomError? ==> r.status == InternalServerError
    ensures e.JoiValidationError? || e.PlainError? ==> r.message == e.message
    ensures e.NonError? ==> r.message == "Internal Server Error"
  {
    match e
    case CustomError(s, m) => ErrorInfo(s, m)
    case JoiValidationError(m) => ErrorInfo(InternalServerError, m)
    case PlainError(m) => ErrorInfo(InternalServerError, m)
    case NonError => ErrorInfo(InternalServerError, "Internal Server Error")
  }

  /** `errorHandlerFunc` of the older backend. */
  function LegacyHandlerFunc<T>(o: Outcome<T>): (r: Outcome<T>)
    ensures o.Returned? ==> r == o
    ensures o.Threw? ==> r.Threw? && r.error.CustomError?
    ensures o.Threw? ==> LegacyErrorInfo(r.error) == LegacyErrorInfo(o.error)
  {
    match o
    case Returned(_) => o
    case Threw(e) =>
      var info := LegacyErrorInfo(e);
      Threw(CustomError(info.status, info.message))
  }

  /** The two classifications agree on everything except Joi errors. */
  lemma ClassificationsDifferOnlyOnJoi(e: Thrown)
    ensures e.JoiValidationError? <==> LegacyErrorInfo(e) != ErrorInfoOf(e)
  {
  }

  /** A Joi error reported directly gets 400, but once it has passed
      through the older `errorHandlerFunc` it is reported as a 500. */
  lemma WrappedJoiErrorIsServerError<T>(message: string)
    ensures ErrorHandlerRes(JoiValidationError(message)).status == BadRequest
    ensures var wrapped := LegacyHandlerFunc<T>(Threw(JoiValidationError(message)));
            wrapped.Threw? && ErrorHandlerRes(wrapped.error) == ErrorReply(InternalServerError, false, message)
  {
  }

  /** Whatever a wrapped call threw, the reply carries the classification
      the wrapper computed. */
  lemma ReplyOfWrappedFailure<T>(o: Outcome<T>)
    requires o.Threw?
    ensures var wrapped := LegacyHandlerFunc(o);
            wrapped.Threw? &&
            ErrorHandlerRes(wrapped.error).status == LegacyErrorInfo(o.error).status &&
            ErrorHandlerRes(wrapped.error).error == LegacyErrorInfo(o.error).message
  {
  }
}
