/**
 * Laws of the settlement state machine and the handler queue: the latch,
 * plain settlement, adoption of thenables, draining and attaching.
 */
module SettlementLaws {
  import opened Values
  import opened Semantics
  import opened Steps

  // ----- The latch -----

  /** Once settled, any further `resolve`/`reject` calls leave the whole store as it is. */
  lemma {:induction false} SettledIgnoresCalls(w: World, p: nat, calls: seq<Settle>, fuel: nat)
    requires p < |w.promises| && w.promises[p].state != Pending
    ensures RunCalls(w, p, calls, fuel) == w
  {
    if calls != [] {
      SettledIgnoresCalls(w, p, calls[..|calls| - 1], fuel);
    }
  }

  /** An executor's calls run one after the other. */
  lemma {:induction false} RunCallsAppend(w: World, p: nat, a: seq<Settle>, b: seq<Settle>, fuel: nat)
    ensures RunCalls(w, p, a + b, fuel) == RunCalls(RunCalls(w, p, a, fuel), p, b, fuel)
  {
    if b == [] {
      assert a + b == a;
    } else {
      assert (a + b)[..|a + b| - 1] == a + b[..|b| - 1];
      RunCallsAppend(w, p, a, b[..|b| - 1], fuel);
    }
  }

  /**
   * The first plain settlement an executor makes decides the promise: later calls
   * and a later throw change nothing.
   */
  lemma FirstSettlementWins(w: World, first: Settle, rest: seq<Settle>, throws: Option<Value>, fuel: nat)
    requires !IsThenable(first.value) && fuel >= 1
    ensures var r := Construct(w, Executor([first] + rest, throws), fuel);
            r.0.promises[r.1] == PromiseRec(first.state, first.value, [])
  {
    var p := |w.promises|;
    RunCallsAppend(Push(w), p, [first], rest, fuel);
    assert [first][..0] == [];
    SettleQuiet(Push(w), p, first.state, first.value, fuel);
    var w1 := RunCalls(Push(w), p, [first], fuel);
    assert w1.promises[p] == PromiseRec(first.state, first.value, []);
    SettledIgnoresCalls(w1, p, rest, fuel);
  }

  /** An executor that throws before settling rejects the promise with what it threw. */
  lemma ThrowingExecutorRejects(w: World, e: Value, fuel: nat)
    requires !IsThenable(e) && fuel >= 1
    ensures Construct(w, Executor([], Some(e)), fuel)
         == (w.(promises := w.promises + [PromiseRec(Rejected, e, [])]), |w.promises|)
  {
    SettleQuiet(Push(w), |w.promises|, Rejected, e, fuel);
    assert Push(w).promises[|w.promises| := PromiseRec(Rejected, e, [])] == w.promises + [PromiseRec(Rejected, e, [])];
  }

  /**
   * An executor that throws after calls that left its promise pending rejects the
   * promise with what it threw, whatever those calls did to the rest of the store.
   */
  lemma ThrowAfterPendingCallsRejects(w: World, calls: seq<Settle>, e: Value, fuel: nat)
    requires RunCalls(Push(w), |w.promises|, calls, fuel).promises[|w.promises|].state == Pending
    requires !IsThenable(e) && fuel >= 1
    ensures var r := Construct(w, Executor(calls, Some(e)), fuel);
            r.0.promises[r.1].state == Rejected && r.0.promises[r.1].value == e
  {
    PlainSettlement(RunCalls(Push(w), |w.promises|, calls, fuel), |w.promises|, Rejected, e, fuel);
  }

  // ----- Plain settlement -----

  /**
   * Settling a pending promise with a non-thenable sets the requested state and
   * value, and leaves its queue drained.
   */
  lemma PlainSettlement(w: World, p: nat, st: Terminal, v: Value, fuel: nat)
    requires p < |w.promises| && w.promises[p].state == Pending
    requires !IsThenable(v) && fuel >= 1
    ensures SetResult(w, p, st, v, fuel).promises[p] == PromiseRec(st, v, [])
  {
    var w1 := Put(w, p, w.promises[p].(state := st, value := v));
    var w2 := RunHandlers(w1, w1.promises[p].handlers, st, v, fuel - 1);
    assert w2.promises[p].state == st && w2.promises[p].value == v;
  }

  // ----- Adoption -----

  /** The handler a promise `p` settling with a thenable subscribes to it; `child` is the id `then` allocates. */
  function AdoptionHandler(child: nat, p: nat): Handler
  {
    ThenHandler(child, Some(SettleWith(p, Resolved)), Some(SettleWith(p, Rejected)))
  }

  /**
   * Settling with a pending thenable, by resolve or by reject alike, leaves the
   * promise as it was and queues its `_resolve`/`_reject` on the thenable.
   */
  lemma AdoptPending(w: World, p: nat, st: Terminal, q: nat, fuel: nat)
    requires p < |w.promises| && w.promises[p].state == Pending
    requires q < |w.promises| && w.promises[q].state == Pending && fuel >= 1
    ensures SetResult(w, p, st, Thenable(q), fuel)
         == Put(Push(w), q, w.promises[q].(handlers := w.promises[q].handlers + [AdoptionHandler(|w.promises|, p)]))
  {
    ThenOnPending(w, q, Some(SettleWith(p, Resolved)), Some(SettleWith(p, Rejected)), fuel - 1);
  }

  /**
   * Settling with a thenable that is not a promise of the store leaves the promise
   * pending and queues nothing; only the unused child of `then` is allocated.
   */
  lemma AdoptForeign(w: World, p: nat, st: Terminal, q: nat, fuel: nat)
    requires p < |w.promises| && w.promises[p].state == Pending && q >= |w.promises| && fuel >= 1
    ensures SetResult(w, p, st, Thenable(q), fuel) == Push(w)
  {
  }

  /**
   * Settling with a settled thenable, by resolve or by reject alike, gives the
   * promise that thenable's state and value.
   */
  lemma AdoptSettled(w: World, p: nat, st: Terminal, q: nat, fuel: nat)
    requires p < |w.promises| && w.promises[p].state == Pending && w.promises[p].handlers == []
    requires q < |w.promises| && w.promises[q].state != Pending && w.promises[q].handlers == []
    requires !IsThenable(w.promises[q].value) && fuel >= 2
    ensures SetResult(w, p, st, Thenable(q), fuel)
         == w.(promises := w.promises[p := PromiseRec(w.promises[q].state, w.promises[q].value, [])]
                           + [PromiseRec(Resolved, Undefined, [])])
  {
    var recq := w.promises[q];
    var child := |w.promises|;
    var h := AdoptionHandler(child, p);
    var w1 := Put(Push(w), q, recq.(handlers := [h]));
    var w2 := Put(w1, p, PromiseRec(recq.state, recq.value, []));
    var w3 := Put(w2, child, PromiseRec(Resolved, Undefined, []));
    assert SetResult(w, p, st, Thenable(q), fuel) == Put(w3, q, recq) by {
      ThenOnSettled(w, q, Some(SettleWith(p, Resolved)), Some(SettleWith(p, Rejected)), fuel - 1);
      var reaction := Selected(h, recq.state).value;
      assert reaction.callback == Some(SettleWith(p, recq.state));
      SettleQuiet(w1, p, recq.state, recq.value, fuel - 1);
      assert Invoke(w1, SettleWith(p, recq.state), recq.value, fuel - 1) == (w2, Return(Undefined));
      SettleQuiet(w2, child, Resolved, Undefined, fuel - 1);
      assert RunReaction(w1, reaction, recq.value, fuel - 1) == w3;
    }
    var expected := w.promises[p := PromiseRec(recq.state, recq.value, [])] + [PromiseRec(Resolved, Undefined, [])];
    assert Put(w3, q, recq).promises == expected;
  }

  /**
   * Settling with a settled thenable gives the promise that thenable's state and
   * value, whatever handlers were queued on the promise itself.
   */
  lemma AdoptSettledOutcome(w: World, p: nat, st: Terminal, q: nat, fuel: nat)
    requires p < |w.promises| && w.promises[p].state == Pending
    requires q < |w.promises| && w.promises[q].state != Pending && w.promises[q].handlers == []
    requires !IsThenable(w.promises[q].value) && fuel >= 2
    ensures var r := SetResult(w, p, st, Thenable(q), fuel);
            r.promises[p].state == w.promises[q].state && r.promises[p].value == w.promises[q].value
  {
    var recq := w.promises[q];
    var h := AdoptionHandler(|w.promises|, p);
    var w1 := Put(Push(w), q, recq.(handlers := [h]));
    var w2 := RunReaction(w1, Selected(h, recq.state).value, recq.value, fuel - 1);
    ThenOnSettled(w, q, Some(SettleWith(p, Resolved)), Some(SettleWith(p, Rejected)), fuel - 1);
    assert SetResult(w, p, st, Thenable(q), fuel) == Put(w2, q, recq);
    assert w2.promises[p].state == recq.state && w2.promises[p].value == recq.value by {
      var w3 := SetResult(w1, p, recq.state, recq.value, fuel - 1);
      PlainSettlement(w1, p, recq.state, recq.value, fuel - 1);
      assert Invoke(w1, SettleWith(p, recq.state), recq.value, fuel - 1) == (w3, Return(Undefined));
      assert Advances(w3, w2);
    }
  }

  /** Static `resolve`/`reject` of a settled thenable take on its outcome. */
  lemma ConstructAdopts(w: World, st: Terminal, q: nat, fuel: nat)
    requires q < |w.promises| && w.promises[q].state != Pending && w.promises[q].handlers == []
    requires !IsThenable(w.promises[q].value) && fuel >= 2
    ensures var r := Construct(w, Executor([Settle(st, Thenable(q))], None), fuel);
            && r.0 == w.(promises := w.promises + [PromiseRec(w.promises[q].state, w.promises[q].value, []),
                                                   PromiseRec(Resolved, Undefined, [])])
            && r.0.promises[r.1] == PromiseRec(w.promises[q].state, w.promises[q].value, [])
  {
    var calls := [Settle(st, Thenable(q))];
    var p := |w.promises|;
    assert calls[..0] == [];
    assert Push(w).promises[q] == w.promises[q];
    assert RunCalls(Push(w), p, calls, fuel) == SetResult(Push(w), p, st, Thenable(q), fuel);
    AdoptSettled(Push(w), |w.promises|, st, q, fuel);
    assert Push(w).promises[p := PromiseRec(w.promises[q].state, w.promises[q].value, [])] + [PromiseRec(Resolved, Undefined, [])]
        == w.promises + [PromiseRec(w.promises[q].state, w.promises[q].value, []), PromiseRec(Resolved, Undefined, [])];
  }

  /** `SyncPromise.reject(p)` ends with `p`'s outcome, not with `p` as its reason. */
  lemma RejectAdoptsThenable(w: World, q: nat, fuel: nat)
    requires q < |w.promises| && w.promises[q].state == Resolved && w.promises[q].handlers == []
    requires !IsThenable(w.promises[q].value) && fuel >= 2
    ensures var r := Reject(w, Thenable(q), fuel);
            r.0.promises[r.1].state == Resolved && r.0.promises[r.1].value == w.promises[q].value
  {
    ConstructAdopts(w, Rejected, q, fuel);
  }

  /** `resolve(resolve(v))` settles exactly as `resolve(v)`: nested promises flatten. */
  lemma NestedResolveFlattens(w: World, v: Value, fuel: nat)
    requires !IsThenable(v) && fuel >= 2
    ensures var inner := Resolve(w, v, fuel);
            var outer := Resolve(inner.0, Thenable(inner.1), fuel);
            outer.0.promises[outer.1] == inner.0.promises[inner.1] == PromiseRec(Resolved, v, [])
  {
    ConstructSettled(w, Resolved, v, fuel);
    var inner := Resolve(w, v, fuel);
    ConstructAdopts(inner.0, Resolved, inner.1, fuel);
  }

  /**
   * A direct settlement made while an adopted thenable is still pending wins; the
   * thenable settling later changes nothing.
   */
  lemma DirectSettleBeatsAdoption(w: World, p: nat, q: nat, st1: Terminal, st2: Terminal, v2: Value,
                                  st3: Terminal, v3: Value, fuel: nat)
    requires p < |w.promises| && w.promises[p].state == Pending
    requires q < |w.promises| && w.promises[q].state == Pending
    requires !IsThenable(v2) && fuel >= 1
    ensures var w1 := SetResult(w, p, st1, Thenable(q), fuel);
            var w2 := SetResult(w1, p, st2, v2, fuel);
            var w3 := SetResult(w2, q, st3, v3, fuel);
            w3.promises[p].state == st2 && w3.promises[p].value == v2
  {
    AdoptPending(w, p, st1, q, fuel);
    var w1 := SetResult(w, p, st1, Thenable(q), fuel);
    PlainSettlement(w1, p, st2, v2, fuel);
  }

  // ----- Draining -----

  /** The halves a drain in state `st` calls, in queue order, leaving out absent ones. */
  function Reactions(hs: seq<Handler>, st: State): seq<Reaction>
  {
    if hs == [] then []
    else
      var last := Selected(hs[|hs| - 1], st);
      Reactions(hs[..|hs| - 1], st) + (if last.Some? then [last.value] else [])
  }

  /** Calling `rs` one after another, first to last. */
  function RunInOrder(w: World, rs: seq<Reaction>, v: Value, fuel: nat): (r: World)
    decreases |rs|
    ensures Advances(w, r)
  {
    if rs == [] then w else RunInOrder(RunReaction(w, rs[0], v, fuel), rs[1..], v, fuel)
  }

  lemma {:induction false} RunInOrderSnoc(w: World, rs: seq<Reaction>, r: Reaction, v: Value, fuel: nat)
    decreases |rs|
    ensures RunInOrder(w, rs + [r], v, fuel) == RunReaction(RunInOrder(w, rs, v, fuel), r, v, fuel)
  {
    if rs != [] {
      assert (rs + [r])[1..] == rs[1..] + [r];
      RunInOrderSnoc(RunReaction(w, rs[0], v, fuel), rs[1..], r, v, fuel);
    }
  }

  /**
   * A drain calls, in insertion order, the `onrejected` half of every handler when
   * rejected and the `onfulfilled` half when resolved, skipping handlers without one.
   */
  lemma {:induction false} DrainCallsSelectedInOrder(w: World, hs: seq<Handler>, st: State, v: Value, fuel: nat)
    ensures RunHandlers(w, hs, st, v, fuel) == RunInOrder(w, Reactions(hs, st), v, fuel)
  {
    if hs != [] {
      var init := hs[..|hs| - 1];
      DrainCallsSelectedInOrder(w, init, st, v, fuel);
      match Selected(hs[|hs| - 1], st)
      case None =>
        assert Reactions(hs, st) == Reactions(init, st) + [] == Reactions(init, st);
        assert RunHandlers(w, hs, st, v, fuel) == RunHandlers(w, init, st, v, fuel);
      case Some(r) =>
        RunInOrderSnoc(w, Reactions(init, st), r, v, fuel);
    }
  }

  /** Handlers queued earlier run before handlers queued later. */
  lemma {:induction false} DrainAppend(w: World, hs1: seq<Handler>, hs2: seq<Handler>, st: State, v: Value, fuel: nat)
    ensures RunHandlers(w, hs1 + hs2, st, v, fuel) == RunHandlers(RunHandlers(w, hs1, st, v, fuel), hs2, st, v, fuel)
  {
    if hs2 == [] {
      assert hs1 + hs2 == hs1;
    } else {
      assert (hs1 + hs2)[..|hs1 + hs2| - 1] == hs1 + hs2[..|hs2| - 1];
      DrainAppend(w, hs1, hs2[..|hs2| - 1], st, v, fuel);
    }
  }

  /**
   * Draining does nothing while pending; once settled it keeps the state and
   * value, and the queue ends empty.
   */
  lemma DrainEmptiesQueue(w: World, p: nat, fuel: nat)
    requires p < |w.promises|
    ensures var r := ExecuteHandlers(w, p, fuel);
            if w.promises[p].state == Pending then r == w
            else r.promises[p] == w.promises[p].(handlers := [])
  {
  }

  // ----- Attaching -----

  /** Attaching to a pending promise grows its queue by exactly that handler and changes nothing else. */
  lemma AttachToPending(w: World, p: nat, h: Handler, fuel: nat)
    requires p < |w.promises| && w.promises[p].state == Pending
    ensures AttachHandler(w, p, h, fuel) == Put(w, p, w.promises[p].(handlers := w.promises[p].handlers + [h]))
  {
  }

  /**
   * Attaching to a settled promise fires the queue at once, the new handler last,
   * and leaves the queue empty.
   */
  lemma AttachToSettled(w: World, p: nat, h: Handler, fuel: nat)
    requires p < |w.promises| && w.promises[p].state != Pending
    ensures var rec := w.promises[p];
            var hs := rec.handlers + [h];
            var r := AttachHandler(w, p, h, fuel);
            && r.promises[p] == rec.(handlers := [])
            && r == Put(RunInOrder(Put(w, p, rec.(handlers := hs)), Reactions(hs, rec.state), rec.value, fuel), p, rec.(handlers := []))
  {
    var rec := w.promises[p];
    var hs := rec.handlers + [h];
    DrainCallsSelectedInOrder(Put(w, p, rec.(handlers := hs)), hs, rec.state, rec.value, fuel);
  }
}
