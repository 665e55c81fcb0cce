/** The event-loop side of the decoupled WAMP client: the callback wrapper, the four
    request handlers and the dispatch loop that runs once the session has joined.
    Every method is proved to do what the functions of DispatchSpec say. */
module AsyncDecoupledClient {
  import opened WampTypes
  import opened DispatchSpec

  /** Wraps a user callback so that it runs on the callback executor and never on
      the event-loop thread. */
  class WampCallbackHandler {
    const callback: Option<Callback>
    const executor: EventLog

    /** The constructor asserts that the callback is callable; the handlers raise
        AssertionError before constructing one when it is not. */
    constructor (callback: Option<Callback>, executor: EventLog)
      requires IsCallable(callback)
      ensures this.callback == callback && this.executor == executor
    {
      this.callback := callback;
      this.executor := executor;
    }

    /** Called with positional and keyword arguments, the wrapper hands the callback
        and the KEYWORD arguments to the executor; positional ones are dropped. */
    method Invoke(args: seq<PyValue>, kwargs: Kwargs)
      modifies executor
      ensures executor.events ==
                old(executor.events) + if IsCallable(callback) then [Execute(callback.value.id, kwargs)] else []
    {
      if IsCallable(callback) {
        executor.Record(Execute(callback.value.id, kwargs));
      }
    }
  }

  /** A handler ended as `effect` says: resolved the future, or left it unset and
      let the exception escape. */
  ghost predicate EndedAs(effect: Effect, slot: Slot, escaped: Option<Exc>)
  {
    match effect.outcome
    case Resolved(v) => slot == Value(v) && escaped == None
    case Escaped(e) => slot == Unset && escaped == Some(e)
  }

  /** The futures of the queued requests: what the loop may modify. */
  ghost function Futures(queue: seq<Request>): set<Future>
  {
    set j | 0 <= j < |queue| :: queue[j].future
  }

  class WampClientAutobahn {
    const allowException: bool
    /** The callback executor and the session, seen through the calls made on them. */
    const log: EventLog

    constructor (log: EventLog, allowException: bool)
      ensures this.log == log && this.allowException == allowException
    {
      this.log := log;
      this.allowException := allowException;
    }

    method HandleStop(r: Request) returns (escaped: Option<Exc>)
      requires r.future.slot == Unset
      modifies log, r.future
      ensures log.events == old(log.events) + StopEffect(r).events
      ensures EndedAs(StopEffect(r), r.future.slot, escaped)
    {
      log.Record(ExecutorStop);
      log.Record(SessionDisconnect);
      if r.reply.Raised? {
        return Some(r.reply.exc);
      }
      r.future.SetResult(Bool(true));
      escaped := None;
    }

    method HandleCall(r: Request) returns (escaped: Option<Exc>)
      requires r.future.slot == Unset
      modifies log, r.future
      ensures log.events == old(log.events) + CallEffect(r).events
      ensures EndedAs(CallEffect(r), r.future.slot, escaped)
    {
      log.Record(SessionCall(r.uri, r.kwargs));
      if r.reply.Raised? {
        return Some(r.reply.exc);
      }
      var payload := Unwrap(r.reply.value);
      if payload.Err? {
        return Some(payload.exc);
      }
      var result := payload.value;
      if r.callback.Some? {
        if !IsCallable(r.callback) {
          return Some(AssertionError);
        }
        var callback := new WampCallbackHandler(r.callback, log);
        callback.Invoke([Dict(result)], map[]);
      }
      r.future.SetResult(Dict(result));
      escaped := None;
    }

    method HandleSubscribe(r: Request) returns (escaped: Option<Exc>)
      requires r.future.slot == Unset
      modifies log, r.future
      ensures log.events == old(log.events) + SubscribeEffect(r).events
      ensures EndedAs(SubscribeEffect(r), r.future.slot, escaped)
    {
      if !IsCallable(r.callback) {
        return Some(AssertionError);
      }
      var callback := new WampCallbackHandler(r.callback, log);
      log.Record(SessionSubscribe(r.uri, r.kwargs, callback.callback.value.id));
      if r.reply.Raised? {
        return Some(r.reply.exc);
      }
      r.future.SetResult(r.reply.value);
      escaped := None;
    }

    method HandleUnsubscribe(r: Request) returns (escaped: Option<Exc>)
      requires r.future.slot == Unset
      modifies log, r.future
      ensures log.events == old(log.events) + UnsubscribeEffect(r).events
      ensures EndedAs(UnsubscribeEffect(r), r.future.slot, escaped)
    {
      if r.subscription.None? {
        // None has no `unsubscribe`: the AttributeError is caught as an Exception
        r.future.SetResult(Bool(false));
        return None;
      }
      log.Record(SessionUnsubscribe(r.subscription.value));
      if r.reply.Raised? && r.reply.exc.NonException? {
        // not an Exception: neither except clause catches it
        return Some(r.reply.exc);
      } else if r.reply.Raised? {
        r.future.SetResult(Bool(false));
      } else {
        r.future.SetResult(Bool(true));
      }
      escaped := None;
    }

    /** One turn of the body of onJoin's loop (the inner try block and the
        STOP check): pick the handler by kind, run it, and translate an
        ApplicationError into the future as allow_exception says. */
    method TreatRequest(r: Request) returns (flow: Flow)
      requires r.future.slot == Unset
      modifies log, r.future
      ensures log.events == old(log.events) + HandleRequest(allowException, r).events
      ensures r.future.slot == HandleRequest(allowException, r).slot
      ensures flow == HandleRequest(allowException, r).flow
    {
      var escaped: Option<Exc> := None;
      match HandlerFor(r.kind) {
        case None =>
        case Some(StopHandler) => escaped := HandleStop(r);
        case Some(CallHandler) => escaped := HandleCall(r);
        case Some(SubscribeHandler) => escaped := HandleSubscribe(r);
        case Some(UnsubscribeHandler) => escaped := HandleUnsubscribe(r);
      }
      if escaped.Some? && escaped.value.ApplicationError? {
        if allowException {
          r.future.SetException(WaapiRequestFailed(escaped.value));
        } else {
          r.future.SetResult(PyNone);
        }
        escaped := None;
      }
      if escaped == Some(RuntimeError) {
        flow := LoopClosed;
      } else if escaped.Some? {
        flow := Propagate(escaped.value);
      } else if r.kind.Stop? {
        flow := Break;
      } else {
        flow := Continue;
      }
    }

    /** One turn of onJoin's loop on request i of the queue, when requests 0 to
        i - 1 have been served with side effects `events` after `prefix` and
        futures `slots`: the request's own future is the only one that changes. */
    method ServeRequest(queue: seq<Request>, i: nat, ghost prefix: seq<Event>,
                        ghost events: seq<Event>, ghost slots: seq<Slot>) returns (flow: Flow)
      requires i < |queue| && |slots| == i
      requires forall j, k :: 0 <= j < k < |queue| ==> queue[j].future != queue[k].future
      requires log.events == prefix + events
      requires forall j :: 0 <= j < i ==> queue[j].future.slot == slots[j]
      requires forall j :: i <= j < |queue| ==> queue[j].future.slot == Unset
      modifies log, queue[i].future
      ensures var s := HandleRequest(allowException, queue[i]);
              && flow == s.flow
              && log.events == prefix + (events + s.events)
              && (forall j :: 0 <= j < i + 1 ==> queue[j].future.slot == (slots + [s.slot])[j])
              && (forall j :: i + 1 <= j < |queue| ==> queue[j].future.slot == Unset)
    {
      var r := queue[i];
      ghost var s := HandleRequest(allowException, r);
      flow := TreatRequest(r);
      assert log.events == prefix + (events + s.events);
      forall j | 0 <= j < |queue| && j != i
        ensures queue[j].future.slot == old(queue[j].future.slot)
      {
        assert queue[j].future != r.future;
      }
    }

    /** onJoin: signal the decoupler, start the executor, then serve the queue one
        request at a time until a STOP, a shut-down event loop, or an exception
        that is neither an ApplicationError nor a RuntimeError. `queue` holds the
        requests the decoupler delivers; `closed` says whether the event loop is
        shut down after them. Returning Serving stands for the loop still waiting
        on the queue once every delivered request has been served. */
    method OnJoin(queue: seq<Request>, closed: bool) returns (state: LoopState)
      requires forall j :: 0 <= j < |queue| ==> queue[j].future.slot == Unset
      requires forall j, k :: 0 <= j < k < |queue| ==> queue[j].future != queue[k].future
      modifies log, Futures(queue)
      ensures var run := Serve(allowException, queue, closed);
              && log.events == old(log.events) + [SetJoined, ExecutorStart] + run.events
              && state == run.exit
              && (forall j :: 0 <= j < |run.slots| ==> queue[j].future.slot == run.slots[j])
              && (forall j :: |run.slots| <= j < |queue| ==> queue[j].future.slot == Unset)
    {
      log.Record(SetJoined);
      log.Record(ExecutorStart);
      state := Serving;
      var i := 0;
      ghost var events: seq<Event> := [];
      ghost var slots: seq<Slot> := [];
      ghost var run := Serve(allowException, queue, closed);
      while state == Serving && (i < |queue| || closed)
        invariant 0 <= i <= |queue| && |slots| == i
        invariant log.events == old(log.events) + [SetJoined, ExecutorStart] + events
        invariant forall j :: 0 <= j < i ==> queue[j].future.slot == slots[j]
        invariant forall j :: i <= j < |queue| ==> queue[j].future.slot == Unset
        invariant state == Serving ==> run == After(events, slots, ServeFrom(allowException, queue, closed, i))
        invariant state != Serving ==> run == Run(events, slots, state)
        decreases |queue| - i, if state == Serving then 1 else 0
      {
        if i == |queue| {
          // waiting on the queue of a shut-down event loop raises RuntimeError
          state := Exited;
        } else {
          ServeStep(allowException, queue, closed, i, events, slots);
          var flow := ServeRequest(queue, i, old(log.events) + [SetJoined, ExecutorStart], events, slots);
          if flow != Continue {
            state := ExitAfter(flow);
          }
          ghost var step := HandleRequest(allowException, queue[i]);
          events, slots := events + step.events, slots + [step.slot];
          i := i + 1;
        }
      }
      assert state == Serving ==> events + [] == events && slots + [] == slots;
    }
  }
}
