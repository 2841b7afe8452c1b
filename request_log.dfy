/**
  Successive requests served by one controller. The injected logger is the
  one piece of state shared between calls: each call appends to it, and
  nothing a call returns depends on what earlier calls logged.
 */
module RequestLog {
  import opened Wrappers
  import opened ActionResults
  import opened ApiJsonController

  /** A call of one entry point with its handler's outcome. */
  datatype Request<T> =
    | ActionRequest(action: Outcome<()>, statusCode: int)
    | ObjectRequest(objectHandler: Outcome<Option<T>>)
    | CollectionRequest(collectionHandler: Outcome<Option<seq<T>>>)

  function Execute<T>(c: Controller, log: seq<LogEntry>, req: Request<T>): Run<ActionResult<T>>
  {
    match req
    case ActionRequest(action, statusCode) => ExecuteAction(c, log, action, statusCode)
    case ObjectRequest(handler) => ExecuteObjectRequest(c, log, handler)
    case CollectionRequest(handler) => ExecuteCollectionRequest(c, log, handler)
  }

  /** The exception the request's handler throws, if any. */
  function HandlerException<T>(req: Request<T>): Option<Exception>
  {
    match req
    case ActionRequest(action, _) => if action.Throws? then Some(action.exception) else None
    case ObjectRequest(handler) => if handler.Throws? then Some(handler.exception) else None
    case CollectionRequest(handler) => if handler.Throws? then Some(handler.exception) else None
  }

  /** The log entries a request should cause: one for an exception `LoggerWrap` catches, none otherwise. */
  function EntriesFor<T>(c: Controller, req: Request<T>): seq<LogEntry>
  {
    match HandlerException(req)
    case Some(e) => if LoggerWrapCatches(c.catchAllExceptions, e) then [LogError(e)] else []
    case None => []
  }

  /** The log entries a sequence of requests should cause, in request order. */
  function ExpectedLog<T>(c: Controller, reqs: seq<Request<T>>): seq<LogEntry>
  {
    if reqs == [] then [] else EntriesFor(c, reqs[0]) + ExpectedLog(c, reqs[1..])
  }

  datatype Session<T> = Session(outcomes: seq<Outcome<ActionResult<T>>>, log: seq<LogEntry>)

  /** Serve the requests in order, each one seeing the log the previous ones left. */
  function Serve<T>(c: Controller, log: seq<LogEntry>, reqs: seq<Request<T>>): Session<T>
    decreases |reqs|
  {
    if reqs == [] then Session([], log)
    else
      var first := Execute(c, log, reqs[0]);
      var rest := Serve(c, first.log, reqs[1..]);
      Session([first.outcome] + rest.outcomes, rest.log)
  }

  /** One request appends exactly its own entries, and its outcome does not depend on the log. */
  lemma ExecuteAppends<T>(c: Controller, log: seq<LogEntry>, req: Request<T>)
    ensures Execute(c, log, req).log == log + EntriesFor(c, req)
    ensures Execute(c, log, req).outcome == Execute(c, [], req).outcome
  {
  }

  /** The logger ends with what it had plus exactly one entry per caught exception, in order. */
  lemma {:induction false} ServeLogsOncePerCaughtException<T>(c: Controller, log: seq<LogEntry>, reqs: seq<Request<T>>)
    ensures Serve(c, log, reqs).log == log + ExpectedLog(c, reqs)
    decreases |reqs|
  {
    if reqs != [] {
      var first := Execute(c, log, reqs[0]);
      ExecuteAppends(c, log, reqs[0]);
      ServeLogsOncePerCaughtException(c, first.log, reqs[1..]);
    }
  }

  /** Each response is the one its request gets when served alone. */
  lemma {:induction false} ServeAnswersEachRequestAlone<T>(c: Controller, log: seq<LogEntry>, reqs: seq<Request<T>>)
    ensures |Serve(c, log, reqs).outcomes| == |reqs|
    ensures forall i :: 0 <= i < |reqs| ==> Serve(c, log, reqs).outcomes[i] == Execute(c, [], reqs[i]).outcome
    decreases |reqs|
  {
    if reqs != [] {
      var first := Execute(c, log, reqs[0]);
      ExecuteAppends(c, log, reqs[0]);
      ServeAnswersEachRequestAlone(c, first.log, reqs[1..]);
      forall i | 0 <= i < |reqs|
        ensures Serve(c, log, reqs).outcomes[i] == Execute(c, [], reqs[i]).outcome
      {
        if i > 0 {
          assert reqs[1..][i - 1] == reqs[i];
        }
      }
    }
  }
}
