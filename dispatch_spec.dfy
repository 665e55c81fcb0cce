/** What the dispatch loop of WampClientAutobahn does, as pure functions: the effect
    of each request handler, how the loop turns a handler's outcome into the
    request's future and into its own next step, and the run over a whole queue.
    The imperative client in AsyncDecoupledClient is proved to behave as these say. */
module DispatchSpec {
  import opened WampTypes

  datatype Attempt<+T> = Ok(value: T) | Err(exc: Exc)

  /** The four coroutine handlers of the client. */
  datatype Handler = StopHandler | CallHandler | SubscribeHandler | UnsubscribeHandler

  /** The kind-to-handler table of onJoin, read with `.get`: no entry for an
      unknown kind. */
  function HandlerFor(kind: RequestKind): (h: Option<Handler>)
    ensures h.None? <==> kind.Unrecognized?
  {
    match kind
    case Stop => Some(StopHandler)
    case Call => Some(CallHandler)
    case Subscribe => Some(SubscribeHandler)
    case Unsubscribe => Some(UnsubscribeHandler)
    case Unrecognized(_) => None
  }

  /** The payload a CALL resolves with: `res.kwresults if res else {}`. A truthy
      result that is not a CallResult has no `kwresults` attribute. */
  function Unwrap(res: PyValue): (r: Attempt<Kwargs>)
    ensures !Truthy(res) ==> r == Ok(map[])
    ensures res.CallResult? ==> r == Ok(res.kwresults)
    ensures r.Err? <==> Truthy(res) && !res.CallResult?
    ensures r.Err? ==> r.exc == AttributeError
  {
    if !Truthy(res) then Ok(map[])
    else if res.CallResult? then Ok(res.kwresults)
    else Err(AttributeError)
  }

  /** How a handler ends: it resolved the future with a value, or an exception
      escaped it (and the future was left untouched). */
  datatype Outcome = Resolved(v: PyValue) | Escaped(e: Exc)

  /** The side effects a handler performs, in order, and how it ends. */
  datatype Effect = Effect(events: seq<Event>, outcome: Outcome)

  /** stop_handler: stop the executor, disconnect the session, resolve with True. */
  function StopEffect(r: Request): Effect
  {
    var events := [ExecutorStop, SessionDisconnect];
    match r.reply
    case Raised(e) => Effect(events, Escaped(e))
    case Returned(_) => Effect(events, Resolved(Bool(true)))
  }

  /** call_handler: call the session, unwrap the payload, hand it to the callback
      wrapper when a callback is given, resolve with the payload. The wrapper
      forwards its keyword arguments, and the payload is passed positionally, so
      the executor always receives an empty mapping. */
  function CallEffect(r: Request): Effect
  {
    var call := [SessionCall(r.uri, r.kwargs)];
    match r.reply
    case Raised(e) => Effect(call, Escaped(e))
    case Returned(res) =>
      match Unwrap(res)
      case Err(e) => Effect(call, Escaped(e))
      case Ok(payload) =>
        if r.callback.None? then Effect(call, Resolved(Dict(payload)))
        else if !IsCallable(r.callback) then Effect(call, Escaped(AssertionError))
        else Effect(call + [Execute(r.callback.value.id, map[])], Resolved(Dict(payload)))
  }

  /** subscribe_handler: wrap the callback (asserting it is callable), subscribe
      the wrapper to the topic, resolve with the subscription. */
  function SubscribeEffect(r: Request): Effect
  {
    if !IsCallable(r.callback) then Effect([], Escaped(AssertionError))
    else
      var subscribe := [SessionSubscribe(r.uri, r.kwargs, r.callback.value.id)];
      match r.reply
      case Raised(e) => Effect(subscribe, Escaped(e))
      case Returned(sub) => Effect(subscribe, Resolved(sub))
  }

  /** unsubscribe_handler: unsubscribe, resolve with True; any Exception (a
      missing subscription object included) resolves with False instead. A
      BaseException that is not an Exception is not caught and escapes. */
  function UnsubscribeEffect(r: Request): Effect
  {
    match r.subscription
    case None => Effect([], Resolved(Bool(false)))
    case Some(handle) =>
      var unsubscribe := [SessionUnsubscribe(handle)];
      match r.reply
      case Raised(e) =>
        if e.NonException? then Effect(unsubscribe, Escaped(e))
        else Effect(unsubscribe, Resolved(Bool(false)))
      case Returned(_) => Effect(unsubscribe, Resolved(Bool(true)))
  }

  function HandlerEffect(h: Handler, r: Request): Effect
  {
    match h
    case StopHandler => StopEffect(r)
    case CallHandler => CallEffect(r)
    case SubscribeHandler => SubscribeEffect(r)
    case UnsubscribeHandler => UnsubscribeEffect(r)
  }

  /** What the loop does after one request: take the next one, break after a
      STOP, leave quietly on RuntimeError, or let any other exception escape. */
  datatype Flow = Continue | Break | LoopClosed | Propagate(e: Exc)

  /** One turn of the loop: its side effects, the request's future afterwards,
      and what the loop does next. */
  datatype Step = Step(events: seq<Event>, slot: Slot, flow: Flow)

  /** One turn of the loop body of onJoin for request r, with the client's
      allow_exception flag. */
  function HandleRequest(allowException: bool, r: Request): (s: Step)
    // an unknown kind is skipped and its future left unset
    ensures r.kind.Unrecognized? ==> s == Step([], Unset, Continue)
    // UNSUBSCRIBE never fails its future; it ends the loop only on an exception
    // that is not an Exception, and otherwise resolves with a bool
    ensures r.kind.Unsubscribe? ==>
              if s.flow == Continue then s.slot.Value? && s.slot.v.Bool?
              else s.flow.Propagate? && s.flow.e.NonException? && s.slot == Unset
    // a future is failed only when exceptions are allowed, and only with an ApplicationError
    ensures s.slot.Failed? ==> allowException && s.slot.e.cause.ApplicationError?
    // the loop breaks exactly after a STOP whose future got resolved
    ensures s.flow == Break <==> r.kind.Stop? && s.slot != Unset
    // a known request's future is resolved exactly when the loop goes on normally
    ensures !r.kind.Unrecognized? ==> (s.slot != Unset <==> s.flow in {Continue, Break})
    // only exceptions other than ApplicationError and RuntimeError escape the loop
    ensures s.flow.Propagate? ==> !s.flow.e.ApplicationError? && !s.flow.e.RuntimeError?
  {
    match HandlerFor(r.kind)
    case None => Step([], Unset, Continue)
    case Some(h) =>
      var effect := HandlerEffect(h, r);
      var next := if r.kind.Stop? then Break else Continue;
      match effect.outcome
      case Resolved(v) => Step(effect.events, Value(v), next)
      case Escaped(e) =>
        if e.ApplicationError? then
          Step(effect.events,
               if allowException then Failed(WaapiRequestFailed(e)) else Value(PyNone),
               next)
        else if e.RuntimeError? then Step(effect.events, Unset, LoopClosed)
        else Step(effect.events, Unset, Propagate(e))
  }

  /** The state of the dispatch loop. Serving at the end of a run means the
      loop is still waiting on the queue for a request that has not come. */
  datatype LoopState = Serving | Stopped | Exited | Crashed(e: Exc)

  /** A whole run of the loop: the side effects, the future of each request it
      took (in queue order), and how it ended. */
  datatype Run = Run(events: seq<Event>, slots: seq<Slot>, exit: LoopState)

  /** The loop over the requests the decoupler delivers, in order; `closed`
      says whether the event loop is shut down once they are used up. */
  function Serve(allowException: bool, q: seq<Request>, closed: bool): (run: Run)
    ensures |run.slots| <= |q|
    ensures q != [] ==> 0 < |run.slots|
    ensures run.exit == Serving ==> !closed && |run.slots| == |q|
  {
    ServeFrom(allowException, q, closed, 0)
  }

  /** The loop from request i of q on. Once the requests are used up, the loop
      waits on the queue: for ever while the event loop runs, and, once it has
      been shut down, the wait raises RuntimeError and the loop exits quietly. */
  function ServeFrom(allowException: bool, q: seq<Request>, closed: bool, i: nat): (run: Run)
    requires i <= |q|
    ensures |run.slots| <= |q| - i
    ensures i < |q| ==> 0 < |run.slots|
    ensures run.exit == Serving ==> !closed && |run.slots| == |q| - i
    decreases |q| - i
  {
    if i == |q| then Run([], [], Drained(closed))
    else
      var s := HandleRequest(allowException, q[i]);
      if s.flow == Continue then After(s.events, [s.slot], ServeFrom(allowException, q, closed, i + 1))
      else Run(s.events, [s.slot], ExitAfter(s.flow))
  }

  /** The state of a loop that has used up the requests: exited once the event
      loop is shut down, still waiting otherwise. */
  function Drained(closed: bool): LoopState
  {
    if closed then Exited else Serving
  }

  /** `run` preceded by some side effects and some resolved futures. */
  function After(events: seq<Event>, slots: seq<Slot>, run: Run): Run
  {
    Run(events + run.events, slots + run.slots, run.exit)
  }

  /** The state the loop is in after a turn that did not continue. */
  function ExitAfter(flow: Flow): (state: LoopState)
    ensures flow != Continue ==> state != Serving
  {
    match flow
    case Continue => Serving
    case Break => Stopped
    case LoopClosed => Exited
    case Propagate(e) => Crashed(e)
  }

  /** A loop that has served requests 0 to i - 1 of q and goes on with request i
      still runs as Serve says after one more turn. */
  lemma ServeStep(allowException: bool, q: seq<Request>, closed: bool, i: nat, events: seq<Event>, slots: seq<Slot>)
    requires i < |q|
    requires Serve(allowException, q, closed) == After(events, slots, ServeFrom(allowException, q, closed, i))
    ensures var s := HandleRequest(allowException, q[i]);
            if s.flow == Continue
            then Serve(allowException, q, closed) ==
                   After(events + s.events, slots + [s.slot], ServeFrom(allowException, q, closed, i + 1))
            else Serve(allowException, q, closed) == Run(events + s.events, slots + [s.slot], ExitAfter(s.flow))
  {
    var s := HandleRequest(allowException, q[i]);
    if s.flow == Continue {
      var rest := ServeFrom(allowException, q, closed, i + 1);
      assert events + (s.events + rest.events) == (events + s.events) + rest.events;
      assert slots + ([s.slot] + rest.slots) == (slots + [s.slot]) + rest.slots;
    }
  }

  /** Serving q from position i >= 1 on is serving its tail from i - 1 on. */
  lemma {:induction false} ServeFromTail(allowException: bool, q: seq<Request>, closed: bool, i: nat)
    requires 1 <= i <= |q|
    ensures ServeFrom(allowException, q, closed, i) == ServeFrom(allowException, q[1..], closed, i - 1)
    decreases |q| - i
  {
    if i < |q| {
      assert q[1..][i - 1] == q[i];
      if HandleRequest(allowException, q[i]).flow == Continue {
        ServeFromTail(allowException, q, closed, i + 1);
      }
    }
  }

  /** The loop over a non-empty queue is one turn on its first request followed,
      when that turn continues, by the loop over the rest. */
  lemma ServeUnfold(allowException: bool, q: seq<Request>, closed: bool)
    requires q != []
    ensures var s := HandleRequest(allowException, q[0]);
            Serve(allowException, q, closed) ==
              if s.flow == Continue then After(s.events, [s.slot], Serve(allowException, q[1..], closed))
              else Run(s.events, [s.slot], ExitAfter(s.flow))
  {
    ServeFromTail(allowException, q, closed, 1);
  }

  /** The side effects of handling each of q in turn, with nothing interleaved. */
  function Trace(allowException: bool, q: seq<Request>): seq<Event>
  {
    if q == [] then [] else HandleRequest(allowException, q[0]).events + Trace(allowException, q[1..])
  }

  /** How many executor `execute` calls a trace holds. */
  function ExecuteCount(events: seq<Event>): nat
  {
    if events == [] then 0
    else (if events[0].Execute? then 1 else 0) + ExecuteCount(events[1..])
  }
}
