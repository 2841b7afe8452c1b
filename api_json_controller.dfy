/**
  The base controller: the `ApiError` helpers, the three entry points, and
  `LoggerWrap`, which runs the handler once and turns its exceptions into
  error responses. Every entry point is `Wrap(LoggerWrap(body))`, where the
  body calls the handler and builds the success response.
 */
module ApiJsonController {
  import opened Wrappers
  import opened Envelopes
  import opened ActionResults
  import opened WrapHooks

  /** The 404 message for a null object result. */
  const NotFoundMessage := "Не удалось получить данные по запросу."
  /** The fixed 500 message for a `NullReferenceException` (no final period). */
  const ServerErrorMessage := "Произошла ошибка на стороне сервера"

  /**
    The readonly configuration of a concrete controller: the constructor flag
    `_catchAllExceptions` (false unless the subclass passes true) and the
    subclass's `Wrap` override. The logger is the `log` threaded through calls.
   */
  datatype Controller = Controller(catchAllExceptions: bool, hook: WrapHook)

  /** `ApiError(string, HttpStatusCode = BadRequest)`. */
  function ApiError<T>(message: string, statusCode: int := BadRequest): (r: ActionResult<T>)
    ensures r.ErrorResult? && r.statusCode == statusCode
    ensures r.errorBody.errors == Some([message])
  {
    ErrorResult(statusCode, ApiErrorResponse(Some([message])))
  }

  /** `ApiError(string[], HttpStatusCode = BadRequest)`: the array is passed through, even empty or null. */
  function ApiErrors<T>(messages: Option<seq<string>>, statusCode: int := BadRequest): (r: ActionResult<T>)
    ensures r.ErrorResult? && r.statusCode == statusCode
    ensures r.errorBody.errors == messages
  {
    ErrorResult(statusCode, ApiErrorResponse(messages))
  }

  /** The single-message overload is the array overload applied to a one-element array. */
  lemma ApiErrorIsOneElementApiErrors<T>(message: string, statusCode: int)
    ensures ApiError<T>(message, statusCode) == ApiErrors<T>(Some([message]), statusCode)
    ensures ApiError<T>(message).statusCode == BadRequest
    ensures ApiErrors<T>(Some([])).errorBody.errors == Some([])
  {
  }

  /** The exceptions `LoggerWrap` catches: every `NullReferenceException`, others only under the flag. */
  predicate LoggerWrapCatches(catchAllExceptions: bool, e: Exception)
  {
    e.kind == NullReference || catchAllExceptions
  }

  /**
    `LoggerWrap`: the `try` returns the producer's result; the first `catch`
    takes `NullReferenceException`, the second (`when (_catchAllExceptions)`)
    every other exception; each catch logs once. Anything else escapes.
   */
  function LoggerWrap<T>(c: Controller, log: seq<LogEntry>, produced: Outcome<ActionResult<T>>): (r: Run<ActionResult<T>>)
    ensures produced.Returns? ==> r == Run(produced, log)
    ensures produced.Throws? ==>
      (r.outcome.Throws? <==> !LoggerWrapCatches(c.catchAllExceptions, produced.exception))
    ensures r.outcome.Throws? ==> r == Run(produced, log)
    ensures r.log == log + (if produced.Throws? && LoggerWrapCatches(c.catchAllExceptions, produced.exception)
                            then [LogError(produced.exception)] else [])
    ensures produced.Throws? && produced.exception.kind == NullReference ==>
      r.outcome == Returns(ApiError(ServerErrorMessage, InternalServerError))
    ensures produced.Throws? && produced.exception.kind != NullReference && c.catchAllExceptions ==>
      r.outcome == Returns(ApiError(produced.exception.message, InternalServerError))
  {
    match produced
    case Returns(_) => Run(produced, log)
    case Throws(ex) =>
      if ex.kind == NullReference then
        Run(Returns(ApiError(ServerErrorMessage, InternalServerError)), log + [LogError(ex)])
      else if c.catchAllExceptions then
        Run(Returns(ApiError(ex.message, InternalServerError)), log + [LogError(ex)])
      else
        Run(produced, log)
  }

  /**
    The failure policy of all entry points as one decision table, in the
    order the layers apply it: `NullReferenceException` first, then the
    catch-all flag, then the `Wrap` override, otherwise propagation.
   */
  function FailurePolicy<T>(c: Controller, log: seq<LogEntry>, e: Exception): Run<ActionResult<T>>
  {
    if e.kind == NullReference then
      Run(Returns(ApiError(ServerErrorMessage, InternalServerError)), log + [LogError(e)])
    else if c.catchAllExceptions then
      Run(Returns(ApiError(e.message, InternalServerError)), log + [LogError(e)])
    else if c.hook.CatchTestException? && e.kind == TestException then
      Run(Returns(StatusCodeResult(c.hook.statusCodeToReturn)), log)
    else
      Run(Throws(e), log)
  }

  // The bodies of the lambdas handed to LoggerWrap: call the handler once, build the success result.

  function ActionBody<T>(action: Outcome<()>, statusCode: int): Outcome<ActionResult<T>>
  {
    match action
    case Returns(_) => Returns(StatusCodeResult(statusCode))
    case Throws(e) => Throws(e)
  }

  function ObjectBody<T>(handler: Outcome<Option<T>>): Outcome<ActionResult<T>>
  {
    match handler
    case Returns(None) => Returns(ApiError(NotFoundMessage, NotFound))
    case Returns(Some(v)) => Returns(ObjectResult(Ok, ApiObjectResponse(Some(v))))
    case Throws(e) => Throws(e)
  }

  function CollectionBody<T>(handler: Outcome<Option<seq<T>>>): Outcome<ActionResult<T>>
  {
    match handler
    case Returns(items) => Returns(CollectionResult(Ok, StaticCollection(items)))
    case Throws(e) => Throws(e)
  }

  /** `ExecuteAction(action, statusCode = NoContent)`. */
  function ExecuteAction<T>(c: Controller, log: seq<LogEntry>, action: Outcome<()>,
                            statusCode: int := NoContent): (r: Run<ActionResult<T>>)
    ensures action.Returns? ==> r == Run(Returns(StatusCodeResult(statusCode)), log)
    ensures action.Throws? ==> r == FailurePolicy(c, log, action.exception)
  {
    Wrap(c.hook, LoggerWrap(c, log, ActionBody(action, statusCode)))
  }

  /** `ExecuteObjectRequest(function)`. */
  function ExecuteObjectRequest<T>(c: Controller, log: seq<LogEntry>, handler: Outcome<Option<T>>): (r: Run<ActionResult<T>>)
    ensures handler == Returns(None) ==>
      r == Run(Returns(ErrorResult(NotFound, ApiErrorResponse(Some([NotFoundMessage])))), log)
    ensures handler.Returns? && handler.value.Some? ==>
      r == Run(Returns(ObjectResult(Ok, ApiObjectResponse(handler.value))), log)
    ensures handler.Throws? ==> r == FailurePolicy(c, log, handler.exception)
    ensures r.outcome.Returns? && r.outcome.value.ObjectResult? ==> r.outcome.value.objectBody.data.Some?
  {
    Wrap(c.hook, LoggerWrap(c, log, ObjectBody(handler)))
  }

  /** `ExecuteCollectionRequest(function)`: always a static collection envelope. */
  function ExecuteCollectionRequest<T>(c: Controller, log: seq<LogEntry>, handler: Outcome<Option<seq<T>>>): (r: Run<ActionResult<T>>)
    ensures handler.Returns? ==>
      && r.log == log
      && r.outcome.Returns? && r.outcome.value.CollectionResult?
      && r.outcome.value.statusCode == Ok
      && r.outcome.value.collectionBody.hasMoreItems == None
      && (handler.value.Some? ==> r.outcome.value.collectionBody.items == handler.value.value)
      && (handler.value.None? ==> r.outcome.value.collectionBody.items == [])
    ensures handler.Throws? ==> r == FailurePolicy(c, log, handler.exception)
  {
    Wrap(c.hook, LoggerWrap(c, log, CollectionBody(handler)))
  }

  /**
    A `NullReferenceException` gives the same fixed 500 response and one log
    entry whatever the configuration and whatever the exception's message.
   */
  lemma NullReferenceIsHidden<T>(c1: Controller, c2: Controller, log: seq<LogEntry>, message1: string, message2: string)
    ensures FailurePolicy<T>(c1, log, Exception(NullReference, message1)).outcome
         == FailurePolicy<T>(c2, log, Exception(NullReference, message2)).outcome
         == Returns(ErrorResult(InternalServerError, ApiErrorResponse(Some([ServerErrorMessage]))))
    ensures FailurePolicy<T>(c1, log, Exception(NullReference, message1)).log
         == log + [LogError(Exception(NullReference, message1))]
  {
  }

  /**
    Any other exception is answered with 500 and its own message exactly when
    the catch-all flag is set; without the flag and without a hook that
    intercepts it, it propagates unchanged.
   */
  lemma CatchAllExposesMessage<T>(c: Controller, log: seq<LogEntry>, e: Exception)
    requires e.kind != NullReference
    ensures FailurePolicy<T>(c, log, e).outcome == Returns(ApiError(e.message, InternalServerError))
        <==> c.catchAllExceptions
    ensures !c.catchAllExceptions && c.hook.PassThrough? ==> FailurePolicy<T>(c, log, e) == Run(Throws(e), log)
    ensures !c.catchAllExceptions && e.kind == OtherException ==> FailurePolicy<T>(c, log, e) == Run(Throws(e), log)
  {
  }

  /** The logger gets one entry exactly for the exceptions `LoggerWrap` catches; hook interceptions log nothing. */
  lemma FailurePolicyLogsCaughtOnly<T>(c: Controller, log: seq<LogEntry>, e: Exception)
    ensures FailurePolicy<T>(c, log, e).log
         == log + (if LoggerWrapCatches(c.catchAllExceptions, e) then [LogError(e)] else [])
    ensures FailurePolicy<T>(c, log, e).outcome.Throws? ==> FailurePolicy<T>(c, log, e).outcome == Throws(e)
  {
  }
}
