/**
  Stand-ins for the host framework's types: the `IActionResult` values the
  controller builds, the exceptions a handler may raise, and the error log
  the injected logger receives.
 */
module ActionResults {
  import opened Envelopes

  /** `HttpStatusCode` values used by the controller and its test. */
  const EarlyHints := 103
  const Ok := 200
  const NoContent := 204
  const BadRequest := 400
  const NotFound := 404
  const InternalServerError := 500

  /**
    An `IActionResult`: `StatusCode(code)` without a body, or with one of the
    three envelopes as its body. `T` is the payload type of the data envelopes.
   */
  datatype ActionResult<T> =
    | StatusCodeResult(statusCode: int)
    | ObjectResult(statusCode: int, objectBody: ApiObjectResponse<T>)
    | CollectionResult(statusCode: int, collectionBody: ApiCollectionResponse<T>)
    | ErrorResult(statusCode: int, errorBody: ApiErrorResponse)

  /** The exception classes the controller tells apart. */
  datatype ExceptionKind =
    | NullReference   // System.NullReferenceException
    | TestException   // the test project's TestException
    | OtherException  // any other System.Exception

  datatype Exception = Exception(kind: ExceptionKind, message: string)

  /** How a `Func<R>` call ends: it returns a value or throws. */
  datatype Outcome<+R> = Returns(value: R) | Throws(exception: Exception)

  /** One `_logger.LogError(ex, ex.ToString())` call; the formatted text is not kept. */
  datatype LogEntry = LogError(exception: Exception)

  /** The outcome of a call together with the logger's entries after it. */
  datatype Run<+R> = Run(outcome: Outcome<R>, log: seq<LogEntry>)
}
