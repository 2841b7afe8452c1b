/**
  The overridable `Wrap` step, as a strategy chosen when a controller is
  built. `ApiJsonController.Wrap` is abstract; `PassThrough` is the
  override that returns the producer's result as it is, and
  `CatchTestException` is the override of `CustomApiJsonController`.
 */
module WrapHooks {
  import opened ActionResults

  datatype WrapHook =
    | PassThrough
    | CatchTestException(statusCodeToReturn: int)

  /**
    Apply the hook to the single run of its producer. The hook never logs
    and never rewrites a result that was returned normally.
   */
  function Wrap<T>(hook: WrapHook, produced: Run<ActionResult<T>>): (r: Run<ActionResult<T>>)
    ensures r.log == produced.log
    ensures produced.outcome.Returns? ==> r == produced
    ensures hook.PassThrough? ==> r == produced
    ensures r.outcome.Throws? ==> r.outcome == produced.outcome
    ensures hook.CatchTestException? ==>
      (r.outcome.Throws? <==> produced.outcome.Throws? && produced.outcome.exception.kind != TestException)
    ensures hook.CatchTestException? && produced.outcome.Throws? && produced.outcome.exception.kind == TestException ==>
      r.outcome == Returns(StatusCodeResult(hook.statusCodeToReturn))
  {
    match hook
    case PassThrough => produced
    case CatchTestException(code) =>
      if produced.outcome.Throws? && produced.outcome.exception.kind == TestException
      then Run(Returns(StatusCodeResult(code)), produced.log)
      else produced
  }
}
