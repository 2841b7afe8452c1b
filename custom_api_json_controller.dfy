/**
  The test project's `CustomApiJsonController`: a `Wrap` override that turns
  `TestException` into a body-less response with a configured status, over
  a base built with the default `catchAllExceptions = false`.
 */
module CustomApiJsonController {
  import opened ActionResults
  import opened WrapHooks
  import opened ApiJsonController

  /** `new CustomApiJsonController(statusCodeToReturn)`. */
  function New(statusCodeToReturn: int): Controller
  {
    Controller(false, CatchTestException(statusCodeToReturn))
  }

  /**
    `Test()`: `ExecuteAction(() => throw new TestException())`. The
    `TestException` class is not part of this model, so its message is a parameter.
   */
  function Test<T>(statusCodeToReturn: int, log: seq<LogEntry>, testMessage: string): (r: Run<ActionResult<T>>)
    ensures r == Run(Returns(StatusCodeResult(statusCodeToReturn)), log)
  {
    ExecuteAction(New(statusCodeToReturn), log, Throws(Exception(TestException, testMessage)))
  }

  /** The unit test: with `EarlyHints`, `Test()` is a `StatusCodeResult` of 103. */
  lemma TestReturnsEarlyHints<T>(testMessage: string)
    ensures Test<T>(EarlyHints, [], testMessage).outcome == Returns(StatusCodeResult(103))
  {
  }

  /**
    On the custom controller a returned result is left alone, a
    `TestException` becomes the configured status without a log entry,
    a `NullReferenceException` still becomes the fixed 500, and any other
    exception propagates.
   */
  lemma CustomControllerDispositions<T>(statusCodeToReturn: int, log: seq<LogEntry>, e: Exception, statusCode: int)
    ensures ExecuteAction<T>(New(statusCodeToReturn), log, Returns(()), statusCode)
         == Run(Returns(StatusCodeResult(statusCode)), log)
    ensures e.kind == TestException ==>
      ExecuteAction<T>(New(statusCodeToReturn), log, Throws(e), statusCode)
      == Run(Returns(StatusCodeResult(statusCodeToReturn)), log)
    ensures e.kind == NullReference ==>
      ExecuteAction<T>(New(statusCodeToReturn), log, Throws(e), statusCode)
      == Run(Returns(ApiError(ServerErrorMessage, InternalServerError)), log + [LogError(e)])
    ensures e.kind == OtherException ==>
      ExecuteAction<T>(New(statusCodeToReturn), log, Throws(e), statusCode) == Run(Throws(e), log)
  {
  }

  /**
    The hook only sees what `LoggerWrap` lets through: with the catch-all
    flag set, a `TestException` is already a logged 500 before `Wrap` runs.
   */
  lemma CatchAllPreemptsCustomWrap<T>(statusCodeToReturn: int, log: seq<LogEntry>, e: Exception)
    requires e.kind == TestException
    ensures ExecuteAction<T>(Controller(true, CatchTestException(statusCodeToReturn)), log, Throws(e))
         == Run(Returns(ApiError(e.message, InternalServerError)), log + [LogError(e)])
  {
  }
}
