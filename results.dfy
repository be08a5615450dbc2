/**
 * Failure-compatible wrappers shared by the backend model, and the HTTP
 * status codes (from the `http-status-codes` package) that the backend uses.
 */
module Results {

  datatype Option<+T> = None | Some(value: T)

  /** A service call either returns a value or fails with a CustomError's
      (status, message) pair, which is what every `errorHandlerFunc`
      wrapper turns a thrown error into. */
  datatype Result<+T> = Ok(value: T) | Err(status: int, message: string)

  const BadRequest: int := 400
  const NotFound: int := 404
  const InternalServerError: int := 500
}
