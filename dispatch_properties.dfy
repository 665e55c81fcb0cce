/** Properties of the dispatch loop: what one turn does for each request kind,
    and what a whole run over a queue does (order, where it stops, what the
    executor receives, how errors reach the futures). */
module DispatchProperties {
  import opened WampTypes
  import opened DispatchSpec

  /** An executor stop or a session disconnect: the teardown a STOP performs. */
  predicate Teardown(e: Event)
  {
    e.ExecutorStop? || e.SessionDisconnect?
  }

  // ---------------------------------------------------------------------------
  // One turn of the loop

  /** STOP stops the executor before it disconnects the session; when the
      disconnect returns, the future is resolved with True and the loop breaks.
      Other requests never stop the executor or disconnect. */
  lemma StopTearsDown(allowException: bool, r: Request)
    ensures var s := HandleRequest(allowException, r);
            && (r.kind.Stop? ==> s.events == [ExecutorStop, SessionDisconnect])
            && (r.kind.Stop? && r.reply.Returned? ==> s.slot == Value(Bool(true)) && s.flow == Break)
            && (!r.kind.Stop? ==> forall e | e in s.events :: !Teardown(e))
  {
  }

  /** CALL resolves with the call's keyword results, or with an empty mapping
      when the session returned a falsy value; it issues exactly one executor
      `execute` when a callback is given and none otherwise, and that execute
      carries an empty mapping instead of the result. */
  lemma CallResolvesWithPayload(allowException: bool, r: Request)
    requires r.kind.Call? && r.reply.Returned?
    requires !Truthy(r.reply.value) || r.reply.value.CallResult?
    requires r.callback.None? || IsCallable(r.callback)
    ensures var s := HandleRequest(allowException, r);
            && s.slot == Value(Dict(if r.reply.value.CallResult? then r.reply.value.kwresults else map[]))
            && s.flow == Continue
            && ExecuteCount(s.events) == (if r.callback.Some? then 1 else 0)
            && s.events[0] == SessionCall(r.uri, r.kwargs)
            && (r.callback.Some? ==> s.events == [SessionCall(r.uri, r.kwargs), Execute(r.callback.value.id, map[])])
  {
    var call := SessionCall(r.uri, r.kwargs);
    if r.callback.Some? {
      var execute := Execute(r.callback.value.id, map[]);
      assert [call, execute][1..] == [execute];
      assert [execute][1..] == [];
    } else {
      assert [call][1..] == [];
    }
  }

  /** A CALL whose session returns escapes the loop, with its future unset and
      nothing but the call sent, exactly when the result is truthy but has no
      keyword results (AttributeError) or the callback given is not callable
      (AssertionError, raised after the result is unwrapped). */
  lemma CallEscapesOnBadResultOrCallback(allowException: bool, r: Request)
    requires r.kind.Call? && r.reply.Returned?
    ensures var res := r.reply.value;
            var badResult := Truthy(res) && !res.CallResult?;
            var badCallback := r.callback.Some? && !IsCallable(r.callback);
            && (HandleRequest(allowException, r).flow.Propagate? <==> badResult || badCallback)
            && (badResult || badCallback ==>
                  HandleRequest(allowException, r) ==
                    Step([SessionCall(r.uri, r.kwargs)], Unset,
                         Propagate(if badResult then AttributeError else AssertionError)))
  {
  }

  /** Whatever a CALL's session does, the executor is handed at most one
      callback, and only ever an empty mapping. */
  lemma CallExecutesAtMostOnce(allowException: bool, r: Request)
    requires r.kind.Call?
    ensures var s := HandleRequest(allowException, r);
            && ExecuteCount(s.events) <= 1
            && (ExecuteCount(s.events) == 1 ==> r.callback.Some? && s.slot.Value?)
            && forall e | e in s.events && e.Execute? :: e.payload == map[]
  {
    var s := HandleRequest(allowException, r);
    var call := SessionCall(r.uri, r.kwargs);
    assert ExecuteCount([call]) == 0 by {
      assert [call][1..] == [];
    }
    if s.events != [call] {
      var execute := Execute(r.callback.value.id, map[]);
      assert s.events == [call, execute];
      assert [call, execute][1..] == [execute];
      assert [execute][1..] == [];
    }
  }

  /** An ApplicationError from the session in a STOP, CALL or SUBSCRIBE fails
      the future with WaapiRequestFailed when exceptions are allowed and
      resolves it with None otherwise; the loop goes on (after a STOP, it
      breaks). */
  lemma ApplicationErrorReachesFuture(allowException: bool, r: Request, reason: string)
    requires r.kind.Stop? || r.kind.Call? || r.kind.Subscribe?
    requires r.reply == Raised(ApplicationError(reason))
    requires r.kind.Subscribe? ==> IsCallable(r.callback)
    ensures var s := HandleRequest(allowException, r);
            && s.slot == (if allowException then Failed(WaapiRequestFailed(ApplicationError(reason)))
                          else Value(PyNone))
            && s.flow == (if r.kind.Stop? then Break else Continue)
  {
  }

  /** Any other exception from the session in a STOP, CALL or SUBSCRIBE leaves
      the future unset: a RuntimeError ends the loop quietly, anything else
      escapes it. */
  lemma OtherExceptionsEndLoop(allowException: bool, r: Request, e: Exc)
    requires r.kind.Stop? || r.kind.Call? || r.kind.Subscribe?
    requires r.reply == Raised(e) && !e.ApplicationError?
    requires r.kind.Subscribe? ==> IsCallable(r.callback)
    ensures var s := HandleRequest(allowException, r);
            s.slot == Unset && s.flow == (if e.RuntimeError? then LoopClosed else Propagate(e))
  {
  }

  /** UNSUBSCRIBE resolves with True exactly when the subscription exists and
      its unsubscribe returned, and with False on any Exception; it never fails
      the future, whatever allow_exception says. Only an exception that is not
      an Exception escapes it, leaving the future unset and ending the loop. */
  lemma UnsubscribeAnswersBool(allowException: bool, r: Request)
    requires r.kind.Unsubscribe?
    ensures var s := HandleRequest(allowException, r);
            var uncaught := r.subscription.Some? && r.reply.Raised? && r.reply.exc.NonException?;
            && (!uncaught ==> s.slot == Value(Bool(r.subscription.Some? && r.reply.Returned?)) && s.flow == Continue)
            && (uncaught ==> s.slot == Unset && s.flow == Propagate(r.reply.exc))
            && s == HandleRequest(!allowException, r)
  {
  }

  /** A SUBSCRIBE with a callable callback whose subscribe returns subscribes
      the callback's wrapper to the topic with the request's options, resolves
      with the subscription and lets the loop continue. */
  lemma SubscribeResolvesWithSubscription(allowException: bool, r: Request)
    requires r.kind.Subscribe? && IsCallable(r.callback) && r.reply.Returned?
    ensures HandleRequest(allowException, r) ==
              Step([SessionSubscribe(r.uri, r.kwargs, r.callback.value.id)], Value(r.reply.value), Continue)
  {
  }

  /** A SUBSCRIBE without a callable callback fails the wrapper's assertion
      before anything is sent: the exception escapes the loop and the future
      stays unset. */
  lemma SubscribeWithoutCallbackEscapes(allowException: bool, r: Request)
    requires r.kind.Subscribe? && !IsCallable(r.callback)
    ensures HandleRequest(allowException, r) == Step([], Unset, Propagate(AssertionError))
  {
  }

  // ---------------------------------------------------------------------------
  // A whole run

  /** The side effects of a run are those of the requests it took, concatenated
      in queue order with nothing interleaved. */
  lemma {:induction false} ServeTrace(allowException: bool, q: seq<Request>, closed: bool)
    ensures var run := Serve(allowException, q, closed);
            run.events == Trace(allowException, q[..|run.slots|])
  {
    if q != [] {
      ServeUnfold(allowException, q, closed);
      if HandleRequest(allowException, q[0]).flow == Continue {
        ServeTrace(allowException, q[1..], closed);
        var m := |Serve(allowException, q[1..], closed).slots|;
        assert q[..1 + m][0] == q[0];
        assert q[..1 + m][1..] == q[1..][..m];
      } else {
        assert q[..1][0] == q[0];
        assert q[..1][1..] == [];
      }
    }
  }

  /** Each future a run takes ends as its own turn says. */
  lemma {:induction false} ServeSlots(allowException: bool, q: seq<Request>, closed: bool)
    ensures var run := Serve(allowException, q, closed);
            forall j :: 0 <= j < |run.slots| ==> run.slots[j] == HandleRequest(allowException, q[j]).slot
  {
    if q != [] {
      ServeUnfold(allowException, q, closed);
      var s := HandleRequest(allowException, q[0]);
      if s.flow == Continue {
        ServeSlots(allowException, q[1..], closed);
        var rest := Serve(allowException, q[1..], closed);
        forall j | 0 <= j < 1 + |rest.slots|
          ensures ([s.slot] + rest.slots)[j] == HandleRequest(allowException, q[j]).slot
        {
          if 0 < j {
            assert q[1..][j - 1] == q[j];
          }
        }
      }
    }
  }

  /** Every request a run takes but the last lets the loop continue, and the run
      ends as its last turn says, or, when the requests run out, waiting on the
      queue or, once the event loop is shut down, exited. */
  lemma {:induction false} ServeFlows(allowException: bool, q: seq<Request>, closed: bool)
    ensures var run := Serve(allowException, q, closed);
            var n := |run.slots|;
            && (forall j :: 0 <= j < n - 1 ==> HandleRequest(allowException, q[j]).flow == Continue)
            && (n == 0 ==> q == [] && run.exit == Drained(closed))
            && (0 < n ==> var last := HandleRequest(allowException, q[n - 1]);
                          if last.flow == Continue then n == |q| && run.exit == Drained(closed)
                          else run.exit == ExitAfter(last.flow))
  {
    if q != [] {
      ServeUnfold(allowException, q, closed);
      if HandleRequest(allowException, q[0]).flow == Continue {
        ServeFlows(allowException, q[1..], closed);
        var m := |Serve(allowException, q[1..], closed).slots|;
        forall j | 0 <= j < m
          ensures HandleRequest(allowException, q[j]).flow == Continue
        {
          if 0 < j {
            assert q[1..][j - 1] == q[j];
          }
        }
        if 0 < m {
          assert q[1..][m - 1] == q[m];
        }
      }
    }
  }

  /** The loop is still waiting on the queue at the end of a run exactly when
      the event loop was not shut down and every delivered request let it
      continue; it waits having taken them all. */
  lemma ServeWaitsOnlyWhileOpen(allowException: bool, q: seq<Request>, closed: bool)
    ensures var run := Serve(allowException, q, closed);
            && (run.exit == Serving <==>
                  !closed && forall j :: 0 <= j < |q| ==> HandleRequest(allowException, q[j]).flow == Continue)
            && (run.exit == Serving ==> |run.slots| == |q|)
  {
    ServeFlows(allowException, q, closed);
  }

  /** The loop takes requests strictly in queue order, one at a time: its side
      effects are those of the requests it took, concatenated in order, each
      taken future ends as its own turn says, and every request taken but the
      last let the loop continue. */
  lemma ServeInOrder(allowException: bool, q: seq<Request>, closed: bool)
    ensures var run := Serve(allowException, q, closed);
            var n := |run.slots|;
            && run.events == Trace(allowException, q[..n])
            && (forall j :: 0 <= j < n ==> run.slots[j] == HandleRequest(allowException, q[j]).slot)
            && (forall j :: 0 <= j < n - 1 ==> HandleRequest(allowException, q[j]).flow == Continue)
  {
    ServeTrace(allowException, q, closed);
    ServeSlots(allowException, q, closed);
    ServeFlows(allowException, q, closed);
  }

  /** The loop never looks past a STOP: it takes at most the requests up to the
      STOP and runs exactly as if the queue ended there, so the futures of later
      requests stay unset (see OnJoin). When every earlier request let the loop
      continue, the STOP is the last request taken and decides how the loop
      ends. */
  lemma {:induction false} FirstStopEndsLoop(allowException: bool, q: seq<Request>, closed: bool, k: nat)
    requires k < |q| && q[k].kind.Stop?
    ensures |Serve(allowException, q, closed).slots| <= k + 1
    ensures Serve(allowException, q, closed) == Serve(allowException, q[..k + 1], closed)
    ensures (forall j :: 0 <= j < k ==> HandleRequest(allowException, q[j]).flow == Continue) ==>
              |Serve(allowException, q, closed).slots| == k + 1 &&
              Serve(allowException, q, closed).exit == ExitAfter(HandleRequest(allowException, q[k]).flow)
  {
    ServeUnfold(allowException, q, closed);
    ServeUnfold(allowException, q[..k + 1], closed);
    assert q[..k + 1][0] == q[0];
    if HandleRequest(allowException, q[0]).flow == Continue {
      assert q[1..][k - 1] == q[k];
      assert q[..k + 1][1..] == q[1..][..k];
      FirstStopEndsLoop(allowException, q[1..], closed, k - 1);
    }
    ServeFlows(allowException, q, closed);
  }

  /** Teardown happens only at the very end of a run: an executor stop or a
      session disconnect is one of the last two side effects. */
  lemma {:induction false} ServeTearsDownLast(allowException: bool, q: seq<Request>, closed: bool)
    ensures var ev := Serve(allowException, q, closed).events;
            forall j :: 0 <= j < |ev| && Teardown(ev[j]) ==> |ev| - 2 <= j
  {
    if q != [] {
      ServeUnfold(allowException, q, closed);
      var s := HandleRequest(allowException, q[0]);
      StopTearsDown(allowException, q[0]);
      if s.flow == Continue {
        ServeTearsDownLast(allowException, q[1..], closed);
        var rest := Serve(allowException, q[1..], closed).events;
        var ev := s.events + rest;
        forall j | 0 <= j < |s.events|
          ensures !Teardown(ev[j])
        {
          assert ev[j] == s.events[j] && s.events[j] in s.events;
        }
        forall j | 0 <= j < |ev| && Teardown(ev[j])
          ensures |ev| - 2 <= j
        {
          assert ev[j] == rest[j - |s.events|];
        }
      } else {
        forall j | 0 <= j < |s.events| && Teardown(s.events[j])
          ensures |s.events| - 2 <= j
        {
          assert s.events[j] in s.events;
        }
      }
    }
  }

  /** A loop that stopped ends with the executor stop followed by the session
      disconnect of its STOP. */
  lemma {:induction false} StoppedEndsWithTeardown(allowException: bool, q: seq<Request>, closed: bool)
    ensures var run := Serve(allowException, q, closed);
            run.exit == Stopped ==>
              2 <= |run.events| && run.events[|run.events| - 2..] == [ExecutorStop, SessionDisconnect]
  {
    if q != [] {
      ServeUnfold(allowException, q, closed);
      var s := HandleRequest(allowException, q[0]);
      if s.flow == Continue {
        StoppedEndsWithTeardown(allowException, q[1..], closed);
        var rest := Serve(allowException, q[1..], closed).events;
        if Serve(allowException, q[1..], closed).exit == Stopped {
          assert (s.events + rest)[|s.events + rest| - 2..] == rest[|rest| - 2..];
        }
      } else if s.flow == Break {
        StopTearsDown(allowException, q[0]);
      }
    }
  }

  /** Every callback the executor is handed during a run gets an empty mapping:
      the CALL payload never reaches it. */
  lemma {:induction false} ServeExecutesEmptyPayloads(allowException: bool, q: seq<Request>, closed: bool)
    ensures var ev := Serve(allowException, q, closed).events;
            forall j :: 0 <= j < |ev| && ev[j].Execute? ==> ev[j].payload == map[]
  {
    if q != [] {
      ServeUnfold(allowException, q, closed);
      var s := HandleRequest(allowException, q[0]);
      if q[0].kind.Call? {
        CallExecutesAtMostOnce(allowException, q[0]);
      }
      assert forall e | e in s.events && e.Execute? :: e.payload == map[];
      var ev := if s.flow == Continue then s.events + Serve(allowException, q[1..], closed).events else s.events;
      if s.flow == Continue {
        ServeExecutesEmptyPayloads(allowException, q[1..], closed);
      }
      forall j | 0 <= j < |ev| && ev[j].Execute?
        ensures ev[j].payload == map[]
      {
        if j < |s.events| {
          assert ev[j] in s.events;
        } else {
          assert ev[j] == Serve(allowException, q[1..], closed).events[j - |s.events|];
        }
      }
    }
  }

  /** With allow_exception off, no future taken by the loop is ever failed; with
      it on, only ApplicationErrors fail futures. */
  lemma ServeFailsOnlyWhenAllowed(allowException: bool, q: seq<Request>, closed: bool)
    ensures var run := Serve(allowException, q, closed);
            forall j :: 0 <= j < |run.slots| && run.slots[j].Failed? ==>
              allowException && run.slots[j].e.cause.ApplicationError?
  {
    ServeSlots(allowException, q, closed);
  }

  /** Every request the loop takes and gets past has its future resolved,
      except an unknown kind, which is skipped with its future unset; a loop
      that stopped resolved its STOP. */
  lemma ServeResolvesTakenRequests(allowException: bool, q: seq<Request>, closed: bool)
    ensures var run := Serve(allowException, q, closed);
            forall j :: 0 <= j < |run.slots| - 1 ==>
              (run.slots[j] == Unset <==> q[j].kind.Unrecognized?)
    ensures var run := Serve(allowException, q, closed);
            run.exit == Stopped ==> run.slots[|run.slots| - 1] != Unset
  {
    ServeSlots(allowException, q, closed);
    ServeFlows(allowException, q, closed);
  }

  /** Unsubscribing the same subscription twice, the second time answered with
      an ApplicationError: True, then False, and the loop goes on waiting until
      the event loop is shut down. */
  lemma UnsubscribeTwice(allowException: bool, closed: bool, handle: nat, first: Future, second: Future)
    ensures var q := [Request(Unsubscribe, "", map[], None, Some(handle), first, Returned(PyNone)),
                      Request(Unsubscribe, "", map[], None, Some(handle), second,
                              Raised(ApplicationError("wamp.error.no_such_subscription")))];
            Serve(allowException, q, closed) ==
              Run([SessionUnsubscribe(handle), SessionUnsubscribe(handle)],
                  [Value(Bool(true)), Value(Bool(false))],
                  Drained(closed))
  {
    var q := [Request(Unsubscribe, "", map[], None, Some(handle), first, Returned(PyNone)),
              Request(Unsubscribe, "", map[], None, Some(handle), second,
                      Raised(ApplicationError("wamp.error.no_such_subscription")))];
    ServeUnfold(allowException, q, closed);
    ServeUnfold(allowException, q[1..], closed);
    assert q[1..][1..] == [];
  }
}
