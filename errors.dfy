/** The API's error model: the `AppError` a handler throws, the other kinds of error
    that can reach the error middleware, and the response the middleware sends. */
module ErrorHandler {
  import opened Models

  /** An error a handler raises on purpose, with the status the client should see.
      (`details` is carried through untouched and is not modelled.) */
  datatype AppError = AppError(message: string, statusCode: int)

  /** What reaches the middleware: a failed request validation, an `AppError`, or
      any other error (a store failure, a bug). */
  datatype Error = ValidationFailed | App(app: AppError) | Internal(message: string)

  /** The JSON error body, `{ success: false, error }`, with its status. */
  datatype ErrorResponse = ErrorResponse(status: int, error: string)

  /** How a handler ends: a success response, or an error passed to `next`. */
  datatype Reply<T> = Ok(status: int, value: T) | Failed(error: Error)

  const DefaultStatus := 500
  const ValidationMessage := "Validation failed"
  const InternalMessage := "Internal server error. Please try again later."

  /** `new AppError(message, statusCode?)`: the status defaults to 500. */
  function NewAppError(message: string, statusCode: Option<int>): (e: AppError)
    ensures e.message == message
    ensures statusCode.None? ==> e.statusCode == DefaultStatus
    ensures statusCode.Some? ==> e.statusCode == statusCode.value
  {
    AppError(message, if statusCode.Some? then statusCode.value else DefaultStatus)
  }

  /** A handler giving up with `throw new AppError(message, status)`. */
  function Fail<T>(message: string, status: int): Reply<T>
  {
    Failed(App(AppError(message, status)))
  }

  /** `errorHandler`: validation errors become 400 with a fixed message, an
      `AppError` keeps its own status and message, and anything else becomes a 500
      whose message reveals nothing about the error. */
  function Handle(e: Error): (r: ErrorResponse)
    ensures e.ValidationFailed? ==> r == ErrorResponse(400, ValidationMessage)
    ensures e.App? ==> r == ErrorResponse(e.app.statusCode, e.app.message)
    ensures e.Internal? ==> r == ErrorResponse(500, InternalMessage)
  {
    match e
    case ValidationFailed => ErrorResponse(400, ValidationMessage)
    case App(app) => ErrorResponse(app.statusCode, app.message)
    case Internal(_) => ErrorResponse(500, InternalMessage)
  }

  /** An `AppError` raised without a status is reported as a server error carrying
      the raised message; an unexpected error never leaks its own message. */
  lemma DefaultStatusIsServerError(message: string, other: Error)
    ensures Handle(App(NewAppError(message, None))) == ErrorResponse(500, message)
    ensures other.Internal? ==> Handle(other).error == InternalMessage
  {
  }
}
