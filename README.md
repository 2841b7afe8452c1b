# KitProjects.Api: envelope and error-translation layer

This project models the request-wrapping core of `ApiJsonController`, the base
class of the JSON API controllers, together with the envelope types it builds.

Each entry point (`ExecuteAction`, `ExecuteObjectRequest`,
`ExecuteCollectionRequest`) is `Wrap(() => LoggerWrap(body))`. The body
calls the caller's handler once and builds the success response:

- a completed action gives a body-less status, 204 by default;
- a null object gives a 404 error envelope;
- a non-null object gives 200 with `ApiObjectResponse`;
- a sequence gives 200 with a static `ApiCollectionResponse`.

`LoggerWrap` catches failures in this order:

1. A `NullReferenceException` is always caught. It is logged and answered with
   a 500 (provided the logging call itself does not throw; see "## Left out") carrying the fixed message `"Произошла ошибка на стороне сервера"`.
2. Any other exception is caught only when the construction-time flag
   `catchAllExceptions` is set. It is logged and answered with a 500 carrying
   the exception's own message.
3. Anything else propagates.

`Wrap` is the subclass's override. The test project's
`CustomApiJsonController` turns `TestException` into a body-less response
with a configured status.

How the model represents these:

- Exceptions are values: a handler outcome is `Returns(v)` or `Throws(Exception(kind, message))`.
- A C# null is `Option.None`.
- An `IActionResult` is the `ActionResult` datatype.
- The injected logger is the list of `LogError` entries threaded through every
  call. `Run(outcome, log)` pairs a call's outcome with the log after it.
- The `Wrap` override is a strategy value, `WrapHook`, chosen when the
  controller is built. `PassThrough` returns the producer's result unchanged.
  `CatchTestException(code)` is the custom controller's override.
- `FailurePolicy` is the whole failure behaviour written as one decision
  table. Every entry point is proved to follow it whenever its handler throws.
  This fixes the priority order: the NullReference clause, then the catch-all
  flag, then the hook.
- A null `action` or `function` delegate throws `NullReferenceException` when
  called. That is the `Throws(Exception(NullReference, _))` outcome, so it is
  answered with the fixed 500.

`ApiObjectResponse` and `ApiErrorResponse` have constructors that only store
their argument. Here they are the datatype constructors, so `Data` and
`Errors` equal the argument by construction. No null normalisation, sorting or
deduplication happens, and the values are immutable.
`NewPaginatedCollection` has no precondition, so any combination of items and
flag is accepted (empty items with `true`, for example).

Some consequences of the code as written:

- The error messages are the Russian strings of `ApiJsonController.cs`; the
  500 message has no final period.
- The controller has entry points for actions, single objects and static
  collections only. `PaginatedCollection` is a data type that no entry point
  consumes.
- Catching other exceptions is governed by the boolean `catchAllExceptions`
  alone. The XML remarks on `ExecuteObjectRequest` (`ApiJsonController.cs:79-80`)
  say other errors are handled and logged as 500. With the default flag
  `false` they propagate instead; see `CatchAllExposesMessage`.
- An error list may be empty or null, because `ApiError(string[])` passes
  its array through unchanged.
- `Wrap` runs outside `LoggerWrap`, so a hook only sees the exceptions
  `LoggerWrap` lets through. With the flag set, the custom hook never sees a
  `TestException`; see `CatchAllPreemptsCustomWrap`.

`RequestLog` serves a sequence of requests against one controller. The
logger's readonly field is the only state the calls share.

## Model

| member | source | states |
|---|---|---|
| `Envelopes.StaticCollection` | KitProjects.Api/ApiCollectionResponse.cs:29 | `Items` is the given sequence, or empty when it is null; `HasMoreItems` is absent |
| `Envelopes.DynamicCollection` | KitProjects.Api/ApiCollectionResponse.cs:36-40 | `Items` is normalised the same way and `HasMoreItems` is always present, holding the given flag |
| `Envelopes.NewPaginatedCollection` | KitProjects.Api/PaginatedCollection.cs:28-32 | a non-null `data` is stored unchanged and a null one becomes empty; `ThereAreMoreItems` is the flag whatever the data |
| `Envelopes.JsonProperties` | KitProjects.Api/ApiCollectionResponse.cs:14-23 | `items` is always written; `hasMoreItems` is written exactly when it is non-null; no other name is written, and none twice |
| `Envelopes.HasMoreItemsPresenceFollowsConstructor` | KitProjects.Api/ApiCollectionResponse.cs:17-18 | the one-argument constructor never writes `hasMoreItems` on the wire; the two-argument one always does |
| `Envelopes.ConstructorsNormaliseAlike` | KitProjects.Api/ApiCollectionResponse.cs:29-38 | both collection constructors and the paginated carrier turn the same nullable input into the same items |
| `Envelopes.CollectionFromConstructor` | KitProjects.Api/ApiCollectionResponse.cs:12-41 | every collection envelope is what one of the two constructors builds from its own items, the one picked by whether `HasMoreItems` is present |
| `WrapHooks.Wrap` | KP.Api.AspNetCore.Tests/CustomApiJsonController.cs:20-30 | the hook never logs and leaves a returned result as it is; the custom hook turns exactly a `TestException` into a body-less configured status; other exceptions propagate unchanged |
| `ApiJsonController.ApiError` | KitProjects.Api/ApiJsonController.cs:44-45 | an error result with the given status and exactly the one message |
| `ApiJsonController.ApiErrors` | KitProjects.Api/ApiJsonController.cs:56-57 | an error result with the given status whose list is the given array, unchanged (empty or null included) |
| `ApiJsonController.ApiErrorIsOneElementApiErrors` | KitProjects.Api/ApiJsonController.cs:44-57 | the string overload equals the array overload on a one-element array; the status defaults to 400; an empty array yields an empty error list |
| `ApiJsonController.LoggerWrap` | KitProjects.Api/ApiJsonController.cs:123-139 | a returned result passes with the log unchanged; a throw propagates unchanged exactly when it is neither a NullReference nor under the catch-all flag; a NullReference gives the fixed 500 message; any other caught exception gives a 500 with its message; the log grows by one entry exactly for a caught exception |
| `ApiJsonController.ExecuteAction` | KitProjects.Api/ApiJsonController.cs:68-73 | on completion: a body-less result with the given status (default 204) and no log entry; on a throw: the failure policy |
| `ApiJsonController.ExecuteObjectRequest` | KitProjects.Api/ApiJsonController.cs:88-96 | null: 404 with exactly the not-found message; non-null: 200 whose `Data` is that value; a throw: the failure policy; an object envelope it returns never holds null |
| `ApiJsonController.ExecuteCollectionRequest` | KitProjects.Api/ApiJsonController.cs:109-114 | on return: 200 with a static envelope whose items are the handler's sequence (empty if null), no `HasMoreItems`, and no log entry; on a throw: the failure policy |
| `ApiJsonController.NullReferenceIsHidden` | KitProjects.Api/ApiJsonController.cs:129-133 | a NullReference gives the same fixed 500 whatever the configuration and whatever its message, and logs it once |
| `ApiJsonController.CatchAllExposesMessage` | KitProjects.Api/ApiJsonController.cs:134-138 | another exception is a 500 with its own message exactly when the flag is set; without the flag it propagates unchanged unless the hook intercepts it |
| `ApiJsonController.FailurePolicyLogsCaughtOnly` | KitProjects.Api/ApiJsonController.cs:129-138 | one log entry exactly for an exception that `LoggerWrap` catches; hook interceptions and propagated exceptions log nothing; what propagates is the handler's own exception |
| `CustomApiJsonController.Test` | KP.Api.AspNetCore.Tests/CustomApiJsonController.cs:18 | `Test()` returns a body-less result with the configured status and logs nothing |
| `CustomApiJsonController.TestReturnsEarlyHints` | KP.Api.AspNetCore.Tests/CustomApiJsonControllerTests.cs:18-23 | with `EarlyHints`, `Test()` gives a status-only result of 103 |
| `CustomApiJsonController.CustomControllerDispositions` | KP.Api.AspNetCore.Tests/CustomApiJsonController.cs:13-30 | on the custom controller (flag false): completion is unchanged; a `TestException` gives the configured status with no log; a NullReference still gives the fixed 500; another exception propagates |
| `CustomApiJsonController.CatchAllPreemptsCustomWrap` | KitProjects.Api/ApiJsonController.cs:134-138 | with the flag set, a `TestException` is already a logged 500 with its message before the custom hook runs |
| `RequestLog.ExecuteAppends` | KitProjects.Api/ApiJsonController.cs:123-139 | one request appends exactly its own entry (one per caught exception, none otherwise), and its outcome does not depend on the log |
| `RequestLog.ServeLogsOncePerCaughtException` | KitProjects.Api/ApiJsonController.cs:129-138 | over any sequence of requests, the logger ends with its old entries plus one entry per caught exception, in request order |
| `RequestLog.ServeAnswersEachRequestAlone` | KitProjects.Api/ApiJsonController.cs:21-33 | each response in a sequence equals the response its request gets when served alone: calls share no state that affects results |

## Left out

- ASP.NET plumbing is not modelled: `ControllerBase`, `StatusCode`/`Ok`, routing, and the Consumes/Produces attributes. An `IActionResult` is the `ActionResult` datatype.
- The logger is assumed non-null, and `_logger.LogError(ex, ex.ToString())` and `ex.ToString()` are assumed never to throw. In C#, an exception thrown inside either catch block of `LoggerWrap` escapes it and reaches `Wrap` instead of a 500; a null logger passed to the constructor would do that, since `LogError` rejects a null logger.
- Only the exception passed to `_logger.LogError` is kept. The severity and the `ex.ToString()` text are not.
- Exception classes are three kinds: NullReference, TestException and other. Subclasses of `NullReferenceException` count as NullReference. `TestException` is assumed not to derive from `NullReferenceException`; its class is not part of this model.
- `Test`: the `TestException` message is a parameter, because that class is not part of this model.
- `WrapHooks.Wrap`: "invokes the producer exactly once" is only structural here. `Wrap` receives the single run of its producer and is proved to keep that run's log unchanged. A pure model cannot call a producer twice.
- Handler sequences are finished values. Lazy `IEnumerable` enumeration is not modelled. In C# that enumeration can happen during serialization, outside `LoggerWrap`.
- JSON serialization covers only which collection properties are written. Values and formatting are left out.
- Null strings inside an error list are not modelled: elements are non-null `string` values.
- Null `Items` in the envelopes is impossible here, because sequences are never null.
- `ApiJsonControllerOptions.ExceptionPredicate` is left out: no code shown reads it. The base class's catch-all is its boolean flag.
- Left out as framework wiring: `Extensions.cs` (DI, Swagger, JSON options) and `LowercaseControllerTokenTransformer`.
- Nothing here is concurrent: each call is a single request/response transaction.
