# Decoupled WAMP client: the dispatch loop

This project models the event-loop side of the decoupled autobahn WAMP client of
the WAAPI Python client (`waapi/wamp/async_decoupled_client.py`). Once the WAMP
session has joined, `WampClientAutobahn.onJoin` tells the decoupler it has joined
and starts the callback executor. Then it pulls requests one at a time and routes
each to a handler by kind (STOP, CALL, SUBSCRIBE, UNSUBSCRIBE). It ends by
resolving the request's single-assignment future with a value, `None`, `True` or
`False`, or by failing it with `WaapiRequestFailed`. The `allow_exception` flag
decides which one an `ApplicationError` produces. A STOP, a `RuntimeError` (the
event loop was shut down) or any other exception ends the loop.
`_WampCallbackHandler` wraps a user callback so that it runs on the executor.

The model has four modules:

- `WampTypes` (`wamp_types.dfy`) holds the Python values, exceptions, request
  kinds and requests. It also has two classes. `Future` is a single-assignment
  slot (`Unset | Value | Failed`) whose setters require it to be unset.
  `EventLog` is the ordered record of what the decoupler, the callback executor
  and the session were asked to do: `set_joined`, `start`, `stop`, `execute(cb, payload)`,
  `call`, `subscribe`, `unsubscribe` and `disconnect`.
- `DispatchSpec` (`dispatch_spec.dfy`) holds pure functions. They give the side
  effects and outcome of each handler, one turn of the loop (`HandleRequest`) and
  a whole run over a queue (`Serve`).
- `AsyncDecoupledClient` (`async_decoupled_client.dfy`) is the imperative client.
  `WampCallbackHandler` stores its callback and executor. `WampClientAutobahn`
  has the four handlers and `OnJoin`, a `while` loop that updates the futures in
  place and appends to the log. Each method's contract ties its new state to the
  functions of `DispatchSpec`.
- `DispatchProperties` (`dispatch_properties.dfy`) holds lemmas about those
  functions.

The session is an input, not a model. Each queued request carries the session's
reply to its operation, either `Returned(value)` or `Raised(exception)`. For a
STOP that operation is the disconnect, for a CALL the call, for a SUBSCRIBE the
subscribe and for an UNSUBSCRIBE the unsubscribe. Exceptions are grouped by the
`except` clause that catches them: `ApplicationError`, `RuntimeError`, any other
`Exception`, or a `BaseException` that is not an `Exception` (such as
`CancelledError` or `KeyboardInterrupt`), which no clause of the client catches.

The requests the decoupler delivers are a finite sequence, together with a flag
`closed` saying whether the event loop is shut down after them. If it is, the
wait for the next request raises `RuntimeError` and the loop exits quietly. If it
is not, the loop waits on the queue for ever, and a run ends in the state
`Serving`.

The model keeps what the code does, including these behaviours a caller may
not expect:

- An unknown request kind leaves its future unset, so a caller waiting on it
  waits forever.
- A CALL's callback is handed an empty mapping, not the call's result. The
  wrapper forwards only its keyword arguments, and the result is passed
  positionally.
- A CALL hands its callback to the executor before it resolves the future.
- An exception that is neither an `ApplicationError` nor a `RuntimeError` escapes
  the loop. Two such are the `callable` assertion of the wrapper and the
  `AttributeError` of a truthy call result that is not a `CallResult`.
- UNSUBSCRIBE catches every `Exception` but not a `BaseException` outside it,
  which escapes the loop with the future unset.

## Model

| member | source | states |
|---|---|---|
| `DispatchSpec.HandlerFor` | waapi/wamp/async_decoupled_client.py:105-110 | the kind-to-handler table has no entry exactly for an unknown kind |
| `DispatchSpec.HandleRequest` | waapi/wamp/async_decoupled_client.py:104-127 | one turn: an unknown kind is skipped with its future unset; UNSUBSCRIBE resolves with a bool and continues, or lets an exception that is not an `Exception` escape with its future unset; a future is failed only when `allow_exception` is on and only for an `ApplicationError`; the loop breaks exactly after a STOP whose future got resolved; a known request's future is resolved exactly when the loop goes on normally; only exceptions other than `ApplicationError` and `RuntimeError` propagate |
| `DispatchSpec.Serve` | waapi/wamp/async_decoupled_client.py:97-131 | a run takes at most the delivered requests, at least one when any is delivered; it is still waiting on the queue only when the event loop was not shut down and it took every request |
| `DispatchSpec.ServeFrom` | waapi/wamp/async_decoupled_client.py:98-131 | the loop from request i on takes at most the remaining requests, at least one when any remain, and is still waiting only when the event loop runs and it took them all |
| `DispatchSpec.ServeStep` | waapi/wamp/async_decoupled_client.py:98-127 | after serving requests 0 to i-1, one more turn either continues with request i+1 or ends the run as that turn's flow says |
| `DispatchSpec.ServeUnfold` | waapi/wamp/async_decoupled_client.py:98-127 | the loop over a non-empty queue is one turn on its head followed, when that continues, by the loop over its tail |
| `AsyncDecoupledClient.WampCallbackHandler.constructor` | waapi/wamp/async_decoupled_client.py:143-147 | the wrapper stores the callback, which must be callable, and the executor |
| `AsyncDecoupledClient.WampCallbackHandler.Invoke` | waapi/wamp/async_decoupled_client.py:149-151 | calling the wrapper hands the executor the callback and the keyword arguments, dropping positional ones; nothing else changes |
| `AsyncDecoupledClient.WampClientAutobahn.constructor` | waapi/wamp/async_decoupled_client.py:19-30 | the client keeps its executor and its `allow_exception` flag |
| `AsyncDecoupledClient.WampClientAutobahn.HandleStop` | waapi/wamp/async_decoupled_client.py:40-48 | records executor `stop` then session `disconnect`, then resolves the future with `True`, or leaves it unset and raises the disconnect's exception |
| `AsyncDecoupledClient.WampClientAutobahn.HandleCall` | waapi/wamp/async_decoupled_client.py:50-62 | records the session call; resolves with the unwrapped payload after one `execute` with an empty mapping when a callback is given; raises the call's, the unwrap's or the callable assertion's exception with the future unset |
| `AsyncDecoupledClient.WampClientAutobahn.HandleSubscribe` | waapi/wamp/async_decoupled_client.py:64-75 | raises `AssertionError` before subscribing when the callback is not callable; otherwise records the subscribe and resolves with the subscription, or raises its exception |
| `AsyncDecoupledClient.WampClientAutobahn.HandleUnsubscribe` | waapi/wamp/async_decoupled_client.py:77-90 | resolves with `True` after a successful unsubscribe and with `False` on any `Exception`, including a missing subscription; an exception that is not an `Exception` escapes with the future unset |
| `AsyncDecoupledClient.WampClientAutobahn.TreatRequest` | waapi/wamp/async_decoupled_client.py:104-127 | one turn of the loop body changes the log and the request's future exactly as `HandleRequest` says and returns its flow |
| `AsyncDecoupledClient.WampClientAutobahn.ServeRequest` | waapi/wamp/async_decoupled_client.py:100-127 | one pass of the loop on request i changes only that request's future, to what `HandleRequest` gives, appends its side effects and returns its flow; earlier futures keep their values and later ones stay unset |
| `AsyncDecoupledClient.WampClientAutobahn.OnJoin` | waapi/wamp/async_decoupled_client.py:92-131 | records `set_joined` then executor `start` before any request, then exactly the side effects of `Serve`; the taken futures end as `Serve` says, every later future stays unset, and the final loop state is `Serve`'s (still waiting, stopped, exited or crashed) |
| `DispatchProperties.StopTearsDown` | waapi/wamp/async_decoupled_client.py:40-48 | STOP records executor `stop` before session `disconnect` and, when the disconnect returns, resolves `True` and breaks; no other kind stops or disconnects |
| `DispatchProperties.CallResolvesWithPayload` | waapi/wamp/async_decoupled_client.py:55-62 | a CALL whose session returns a falsy value or a `CallResult` resolves with `{}` or the `kwresults`, issues the call first, and issues exactly one `execute` (with `{}`) when a callback is given and none otherwise |
| `DispatchProperties.CallEscapesOnBadResultOrCallback` | waapi/wamp/async_decoupled_client.py:57-60 | a CALL whose session returns escapes the loop exactly when the result is truthy without `kwresults` (`AttributeError`) or the callback is not callable (`AssertionError`); then only the call was sent and the future stays unset |
| `DispatchProperties.CallExecutesAtMostOnce` | waapi/wamp/async_decoupled_client.py:58-62 | whatever the session does, a CALL issues at most one `execute`, only with a callback and a resolved future, and only with an empty mapping |
| `DispatchProperties.ApplicationErrorReachesFuture` | waapi/wamp/async_decoupled_client.py:116-127 | an `ApplicationError` in STOP, CALL or SUBSCRIBE fails the future with `WaapiRequestFailed` when `allow_exception` is on and resolves it with `None` otherwise; the loop continues, or breaks after a STOP |
| `DispatchProperties.OtherExceptionsEndLoop` | waapi/wamp/async_decoupled_client.py:112-131 | any other exception in STOP, CALL or SUBSCRIBE leaves the future unset; a `RuntimeError` ends the loop quietly and anything else propagates |
| `DispatchProperties.UnsubscribeAnswersBool` | waapi/wamp/async_decoupled_client.py:82-90 | UNSUBSCRIBE resolves `True` exactly when the subscription exists and its unsubscribe returned, otherwise `False`, and continues; only an exception that is not an `Exception` escapes, with the future unset; nothing depends on `allow_exception` |
| `DispatchProperties.SubscribeResolvesWithSubscription` | waapi/wamp/async_decoupled_client.py:64-75 | a SUBSCRIBE with a callable callback whose subscribe returns records one subscribe of the callback's wrapper to the topic with the request's options, resolves with the subscription and continues |
| `DispatchProperties.SubscribeWithoutCallbackEscapes` | waapi/wamp/async_decoupled_client.py:69 | a SUBSCRIBE without a callable callback sends nothing, leaves its future unset and lets `AssertionError` escape the loop |
| `DispatchProperties.ServeTrace` | waapi/wamp/async_decoupled_client.py:98-127 | a run's side effects are those of the requests it took, concatenated in queue order with nothing interleaved |
| `DispatchProperties.ServeSlots` | waapi/wamp/async_decoupled_client.py:98-127 | each future a run takes ends as its own turn says |
| `DispatchProperties.ServeFlows` | waapi/wamp/async_decoupled_client.py:98-131 | every request taken but the last let the loop continue; the run ends as the last turn says or, when the requests ran out, exited if the event loop was shut down and still waiting otherwise |
| `DispatchProperties.ServeWaitsOnlyWhileOpen` | waapi/wamp/async_decoupled_client.py:98-100 | a run is still waiting on the queue exactly when the event loop was not shut down and every delivered request let the loop continue, and then it took them all |
| `DispatchProperties.ServeInOrder` | waapi/wamp/async_decoupled_client.py:98-127 | requests are handled strictly in queue order, one at a time |
| `DispatchProperties.FirstStopEndsLoop` | waapi/wamp/async_decoupled_client.py:104-127 | nothing after a STOP is ever taken, and the run is the same as on the queue cut right after it; when all earlier requests continued, the STOP is the last request taken and decides how the loop ends, even after an `ApplicationError` |
| `DispatchProperties.ServeTearsDownLast` | waapi/wamp/async_decoupled_client.py:44-46 | an executor stop or a session disconnect only ever appears among the last two side effects of a run |
| `DispatchProperties.StoppedEndsWithTeardown` | waapi/wamp/async_decoupled_client.py:44-48 | a loop that stopped ends with executor `stop` followed by session `disconnect` |
| `DispatchProperties.ServeExecutesEmptyPayloads` | waapi/wamp/async_decoupled_client.py:149-151 | every `execute` of a run carries an empty mapping |
| `DispatchProperties.ServeFailsOnlyWhenAllowed` | waapi/wamp/async_decoupled_client.py:119-122 | no future is ever failed when `allow_exception` is off, and only an `ApplicationError` fails one when it is on |
| `DispatchProperties.ServeResolvesTakenRequests` | waapi/wamp/async_decoupled_client.py:104-127 | every request taken before the last is resolved unless its kind is unknown, and a stopped loop resolved its STOP |
| `DispatchProperties.UnsubscribeTwice` | waapi/wamp/async_decoupled_client.py:82-90 | unsubscribing twice, the second time answered with an `ApplicationError`, resolves `True` then `False`, and the loop goes on waiting |

## Left out

- The autobahn session and transport: `call`, `subscribe`, `unsubscribe` and `disconnect` are given outcomes, not modelled. So is the origin of `ApplicationError`.
- The decoupler's thread-safe queue and the `set_joined` handshake are not modelled. The delivered requests are a finite input sequence with a flag for a later shut-down, and `set_joined` is one event in the log. A run that is still waiting returns `Serving` instead of blocking.
- The callback executor's worker threads are not modelled. `start`, `stop` and `execute` are events in the log, and the executor never raises.
- `onDisconnect`, which stops the global asyncio event loop, is thread and event-loop teardown and is not modelled.
- Cross-thread future semantics (waiting, cancellation, thread safety) and the `await` suspension points are not modelled. A future a caller cancelled would make `set_result` raise; `OnJoin` instead requires every queued future to be unset and distinct, as the client creates them.
- `_log`, `enable_debug_log`, `logger.error` and `pformat` are a logging side channel and are not modelled.
- Callback values are identifiers with a "callable" flag. A callable object that is falsy is not modelled.
- JSON values inside keyword arguments and results are abstracted to strings.
- The `isinstance(executor, CallbackExecutor)` assertion always holds, because the client passes its own executor.
- Events the session delivers later to a subscription's wrapper are covered only by `WampCallbackHandler.Invoke`. The session's delivery is not modelled.
- `AsyncDecoupledClient.WampClientAutobahn.HandleCall`: the log does not record when a future is resolved. So the contract does not state that the `execute` comes before `set_result`; only the method body shows that order.
