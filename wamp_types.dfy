/** Values, requests, exceptions and the two pieces of mutable state that the
    autobahn WAMP client touches from its event-loop thread: the single-assignment
    future of each request, and the ordered log of what the callback executor and
    the session were asked to do. */
module WampTypes {

  /** Keyword arguments and keyword results. The JSON values themselves are
      abstracted to strings: the client only passes them through. */
  type Kwargs = map<string, string>

  /** The Python values the client hands around: what a session call returns and
      what a future is resolved with. */
  datatype PyValue =
    | PyNone
    | Bool(b: bool)
    | Dict(entries: Kwargs)
    | CallResult(kwresults: Kwargs)   // autobahn's CallResult, always truthy
    | Subscription(handle: nat)       // a subscription object, always truthy

  /** Python truthiness of a value, as used by `res.kwresults if res else {}`. */
  predicate Truthy(v: PyValue)
  {
    match v
    case PyNone => false
    case Bool(b) => b
    case Dict(m) => m != map[]
    case CallResult(_) => true
    case Subscription(_) => true
  }

  /** Exceptions, grouped by the `except` clause of the client that catches them. */
  datatype Exc =
    | ApplicationError(reason: string)   // autobahn.wamp.ApplicationError
    | RuntimeError                       // raised once the event loop is shut down
    | OtherException(name: string)       // any other Exception: AttributeError, AssertionError, ...
    | NonException(name: string)         // a BaseException that is not an Exception: CancelledError, KeyboardInterrupt, ...

  const AssertionError: Exc := OtherException("AssertionError")
  const AttributeError: Exc := OtherException("AttributeError")

  /** The exception a future is failed with: WaapiRequestFailed wrapping the cause. */
  datatype RequestFailed = WaapiRequestFailed(cause: Exc)

  /** What a single-assignment future holds. */
  datatype Slot = Unset | Value(v: PyValue) | Failed(e: RequestFailed)

  /** A user callback; `callable` is false for a truthy object that cannot be called. */
  datatype Callback = Callback(id: nat, callable: bool)

  /** `callable(callback)` for an optional callback (None is not callable). */
  predicate IsCallable(cb: Option<Callback>)
  {
    cb.Some? && cb.value.callable
  }

  datatype Option<+T> = None | Some(value: T)

  /** The request type tag; `Unrecognized` stands for any value outside the enum. */
  datatype RequestKind = Stop | Call | Subscribe | Unsubscribe | Unrecognized(tag: int)

  /** What the session does when a request's operation is performed on it: the
      disconnect of a STOP, the call of a CALL, the subscribe of a SUBSCRIBE, the
      unsubscribe of an UNSUBSCRIBE. The session itself is not modelled. */
  datatype Reply = Returned(value: PyValue) | Raised(exc: Exc)

  /** A WampRequest as pulled from the decoupler, paired with the session's reply
      to it. */
  datatype Request = Request(
    kind: RequestKind,
    uri: string,
    kwargs: Kwargs,
    callback: Option<Callback>,
    subscription: Option<nat>,
    future: Future,
    reply: Reply)

  /** One observable side effect, in the order it happens. */
  datatype Event =
    | SetJoined                                                   // decoupler.set_joined()
    | ExecutorStart                                               // callback_executor.start()
    | ExecutorStop                                                // callback_executor.stop()
    | Execute(callback: nat, payload: Kwargs)                     // callback_executor.execute(cb, payload)
    | SessionCall(procedure: string, arguments: Kwargs)           // session.call(uri, **kwargs)
    | SessionSubscribe(topic: string, options: Kwargs, handler: nat) // session.subscribe(handler, topic, options)
    | SessionUnsubscribe(subscription: nat)                       // subscription.unsubscribe()
    | SessionDisconnect                                           // session.disconnect()

  /** A request's single-assignment result slot. Setting it twice is a programming
      error, so both setters require it to be unset. */
  class Future {
    var slot: Slot

    constructor ()
      ensures slot == Unset
    {
      slot := Unset;
    }

    method SetResult(v: PyValue)
      requires slot == Unset
      modifies this
      ensures slot == Value(v)
    {
      slot := Value(v);
    }

    method SetException(e: RequestFailed)
      requires slot == Unset
      modifies this
      ensures slot == Failed(e)
    {
      slot := Failed(e);
    }
  }

  /** The decoupler, the callback executor and the session, seen only through the
      calls made on them: one shared, append-only trace. */
  class EventLog {
    var events: seq<Event>

    constructor ()
      ensures events == []
    {
      events := [];
    }

    method Record(e: Event)
      modifies this
      ensures events == old(events) + [e]
    {
      events := events + [e];
    }
  }
}
