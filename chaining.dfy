/**
 * Laws of chaining: what the child of `then`/`catch` and the result of `finally`
 * settle to, for a parent that is already settled or settles later.
 */
module ChainingLaws {
  import opened Values
  import opened Semantics
  import opened Steps
  import SettlementLaws

  /**
   * What `then` promises its child, given the half that fires: without a callback
   * the parent's outcome passes through; a caller's callback's return value
   * resolves the child and its throw rejects it.
   */
  predicate Direct(callback: Option<Callback>)
  {
    callback.None? || callback.value.User?
  }

  function ThenChild(callback: Option<Callback>, st: Terminal, v: Value): (r: PromiseRec)
    requires Direct(callback)
  {
    match callback
    case None => PromiseRec(st, v, [])
    case Some(cb) =>
      match cb.f(v)
      case Return(x) => PromiseRec(Resolved, x, [])
      case Throw(e) => PromiseRec(Rejected, e, [])
  }

  /** The callback `then(onF, onR)` calls for a parent in state `st`. */
  function Chosen(onF: Option<Callback>, onR: Option<Callback>, st: Terminal): Option<Callback>
  {
    if st == Rejected then onR else onF
  }

  /** The value the child is settled with is not itself a thenable, so no adoption follows. */
  predicate SettlesPlainly(callback: Option<Callback>, v: Value)
    requires Direct(callback)
  {
    match callback
    case None => !IsThenable(v)
    case Some(cb) =>
      match cb.f(v)
      case Return(x) => !IsThenable(x)
      case Throw(e) => !IsThenable(e)
  }

  /** Running the half of a fresh handler settles its fresh child as `ThenChild` says. */
  lemma ReactionSettlesChild(w: World, child: nat, onF: Option<Callback>, onR: Option<Callback>, st: Terminal, v: Value, fuel: nat)
    requires child < |w.promises| && w.promises[child] == Fresh
    requires Direct(Chosen(onF, onR, st)) && SettlesPlainly(Chosen(onF, onR, st), v) && fuel >= 1
    ensures var reaction := Selected(ThenHandler(child, onF, onR), st).value;
            RunReaction(w, reaction, v, fuel) == Put(w, child, ThenChild(Chosen(onF, onR, st), st, v))
  {
    var cb := Chosen(onF, onR, st);
    match cb
    case None =>
      SettleQuiet(w, child, st, v, fuel);
    case Some(User(f)) =>
      match f(v)
      case Return(x) =>
        SettleQuiet(w, child, Resolved, x, fuel);
      case Throw(e) =>
        SettleQuiet(w, child, Rejected, e, fuel);
  }

  /**
   * Running the half of a handler settles its child, pending with any queue, to the
   * state and value `ThenChild` says.
   */
  lemma ReactionSettlesPendingChild(w: World, child: nat, onF: Option<Callback>, onR: Option<Callback>, st: Terminal, v: Value, fuel: nat)
    requires child < |w.promises| && w.promises[child].state == Pending
    requires Direct(Chosen(onF, onR, st)) && SettlesPlainly(Chosen(onF, onR, st), v) && fuel >= 1
    ensures var reaction := Selected(ThenHandler(child, onF, onR), st).value;
            var r := RunReaction(w, reaction, v, fuel).promises[child];
            var expected := ThenChild(Chosen(onF, onR, st), st, v);
            r.state == expected.state && r.value == expected.value
  {
    var cb := Chosen(onF, onR, st);
    match cb
    case None =>
      SettlementLaws.PlainSettlement(w, child, st, v, fuel);
    case Some(User(f)) =>
      match f(v)
      case Return(x) =>
        SettlementLaws.PlainSettlement(w, child, Resolved, x, fuel);
      case Throw(e) =>
        SettlementLaws.PlainSettlement(w, child, Rejected, e, fuel);
  }

  /** `then` on a settled parent settles the child at once, as `ThenChild` says. */
  lemma ThenOnSettledParent(w: World, p: nat, onF: Option<Callback>, onR: Option<Callback>, fuel: nat)
    requires p < |w.promises| && w.promises[p].state != Pending && w.promises[p].handlers == []
    requires Direct(Chosen(onF, onR, w.promises[p].state))
    requires SettlesPlainly(Chosen(onF, onR, w.promises[p].state), w.promises[p].value) && fuel >= 1
    ensures var r := Then(w, p, onF, onR, fuel);
            && r.0.promises[r.1] == ThenChild(Chosen(onF, onR, w.promises[p].state), w.promises[p].state, w.promises[p].value)
            && r.0.promises[p] == w.promises[p]
  {
    var rec := w.promises[p];
    var child := |w.promises|;
    ThenOnSettled(w, p, onF, onR, fuel);
    var w1 := Put(Push(w), p, rec.(handlers := [ThenHandler(child, onF, onR)]));
    ReactionSettlesChild(w1, child, onF, onR, rec.state, rec.value, fuel);
  }

  /**
   * `then` on a pending parent leaves the child pending with one handler queued;
   * when the parent settles later, the child settles as `ThenChild` says.
   */
  lemma ThenOnPendingParent(w: World, p: nat, onF: Option<Callback>, onR: Option<Callback>,
                            st: Terminal, v: Value, fuel: nat)
    requires p < |w.promises| && w.promises[p].state == Pending && w.promises[p].handlers == []
    requires !IsThenable(v) && Direct(Chosen(onF, onR, st)) && SettlesPlainly(Chosen(onF, onR, st), v) && fuel >= 2
    ensures var r := Then(w, p, onF, onR, fuel);
            && r.0.promises[r.1] == Fresh
            && r.0.promises[p].handlers == [ThenHandler(r.1, onF, onR)]
            && SetResult(r.0, p, st, v, fuel).promises[r.1] == ThenChild(Chosen(onF, onR, st), st, v)
  {
    var child := |w.promises|;
    var h := ThenHandler(child, onF, onR);
    var w1 := Then(w, p, onF, onR, fuel).0;
    assert w1 == Put(Push(w), p, w.promises[p].(handlers := [h])) by {
      ThenOnPending(w, p, onF, onR, fuel);
      assert w.promises[p].handlers + [h] == [h];
    }
    var w2 := Put(w1, p, PromiseRec(st, v, [h]));
    var w3 := RunReaction(w2, Selected(h, st).value, v, fuel - 1);
    assert w3 == Put(w2, child, ThenChild(Chosen(onF, onR, st), st, v)) by {
      ReactionSettlesChild(w2, child, onF, onR, st, v, fuel - 1);
    }
    assert SetResult(w1, p, st, v, fuel) == Put(w3, p, w3.promises[p].(handlers := [])) by {
      SettleRunsOne(w1, p, h, st, v, fuel);
    }
  }

  /**
   * A callback that returns a settled thenable makes the child adopt it: the child
   * ends with the thenable's outcome.
   */
  lemma ThenAdoptsReturnedThenable(w: World, p: nat, f: Value -> Outcome, q: nat, fuel: nat)
    requires p < |w.promises| && w.promises[p].state == Resolved && w.promises[p].handlers == []
    requires q < |w.promises| && q != p && w.promises[q].state != Pending && w.promises[q].handlers == []
    requires !IsThenable(w.promises[q].value) && f(w.promises[p].value) == Return(Thenable(q)) && fuel >= 2
    ensures var r := Then(w, p, Some(User(f)), None, fuel);
            r.0.promises[r.1] == PromiseRec(w.promises[q].state, w.promises[q].value, [])
  {
    var rec := w.promises[p];
    var child := |w.promises|;
    ThenOnSettled(w, p, Some(User(f)), None, fuel);
    var w1 := Put(Push(w), p, rec.(handlers := [ThenHandler(child, Some(User(f)), None)]));
    assert RunReaction(w1, OnFulfilled(child, Some(User(f))), rec.value, fuel)
        == SetResult(w1, child, Resolved, Thenable(q), fuel);
    SettlementLaws.AdoptSettled(w1, child, Resolved, q, fuel);
  }

  /**
   * The same for the rejection half: an `onrejected` that returns a settled thenable
   * makes the child end with the thenable's outcome.
   */
  lemma RejectionAdoptsReturnedThenable(w: World, p: nat, g: Value -> Outcome, q: nat, fuel: nat)
    requires p < |w.promises| && w.promises[p].state == Rejected && w.promises[p].handlers == []
    requires q < |w.promises| && q != p && w.promises[q].state != Pending && w.promises[q].handlers == []
    requires !IsThenable(w.promises[q].value) && g(w.promises[p].value) == Return(Thenable(q)) && fuel >= 2
    ensures var r := Then(w, p, None, Some(User(g)), fuel);
            r.0.promises[r.1] == PromiseRec(w.promises[q].state, w.promises[q].value, [])
  {
    var rec := w.promises[p];
    var child := |w.promises|;
    ThenOnSettled(w, p, None, Some(User(g)), fuel);
    var w1 := Put(Push(w), p, rec.(handlers := [ThenHandler(child, None, Some(User(g)))]));
    assert RunReaction(w1, OnRejected(child, Some(User(g))), rec.value, fuel)
        == SetResult(w1, child, Resolved, Thenable(q), fuel);
    SettlementLaws.AdoptSettled(w1, child, Resolved, q, fuel);
  }

  /** `catch` passes a fulfilment through unchanged and hands a rejection to its callback. */
  lemma CatchOnSettledParent(w: World, p: nat, onR: Option<Callback>, fuel: nat)
    requires p < |w.promises| && w.promises[p].state != Pending && w.promises[p].handlers == []
    requires !IsThenable(w.promises[p].value) && fuel >= 1
    requires w.promises[p].state == Rejected ==> Direct(onR) && SettlesPlainly(onR, w.promises[p].value)
    ensures var r := Catch(w, p, onR, fuel);
            var rec := w.promises[p];
            && (rec.state == Resolved ==> r.0.promises[r.1] == PromiseRec(Resolved, rec.value, []))
            && (rec.state == Rejected ==> r.0.promises[r.1] == ThenChild(onR, Rejected, rec.value))
  {
    ThenOnSettledParent(w, p, Some(User(Identity)), onR, fuel);
  }

  // ----- finally -----

  /** The store `finally` starts from: the result promise and the shared cell allocated. */
  function Prepared(w: World): World
  {
    var w1 := Push(w);
    w1.(finallyCells := w1.finallyCells + [FinallyCell(Undefined, false)])
  }

  /**
   * The first `then` of `finally` on a settled parent records the outcome in the
   * cell and settles its child from what `onfinally` did; the result is untouched.
   */
  lemma FinallyFirstStage(w: World, p: nat, cell: nat, result: nat, onfinally: Option<() -> Outcome>, fuel: nat)
    requires p < |w.promises| && w.promises[p].state != Pending && w.promises[p].handlers == []
    requires result < |w.promises| && w.promises[result] == Fresh && cell < |w.finallyCells|
    requires Called(onfinally).Throw? ==> !IsThenable(Called(onfinally).error)
    requires fuel >= 1
    ensures var rec := w.promises[p];
            var first := Then(w, p, Some(FinallyRecord(cell, false, onfinally)), Some(FinallyRecord(cell, true, onfinally)), fuel);
            && first.0.promises[first.1]
               == (if Called(onfinally).Return? then PromiseRec(Resolved, Undefined, []) else PromiseRec(Rejected, Called(onfinally).error, []))
            && first.0.finallyCells[cell] == FinallyCell(rec.value, rec.state == Rejected)
            && first.0.promises[result] == Fresh
  {
    var rec := w.promises[p];
    var st: Terminal := rec.state;
    var recF := Some(FinallyRecord(cell, false, onfinally));
    var recR := Some(FinallyRecord(cell, true, onfinally));
    var c1 := |w.promises|;
    ThenOnSettled(w, p, recF, recR, fuel);
    var w3 := Put(Push(w), p, rec.(handlers := [ThenHandler(c1, recF, recR)]));
    var w4 := w3.(finallyCells := w3.finallyCells[cell := FinallyCell(rec.value, st == Rejected)]);
    assert Invoke(w3, Chosen(recF, recR, st).value, rec.value, fuel) == (w4, Called(onfinally));
    match Called(onfinally)
    case Return(_) =>
      SettleQuiet(w4, c1, Resolved, Undefined, fuel);
    case Throw(e) =>
      SettleQuiet(w4, c1, Rejected, e, fuel);
  }

  /**
   * The second `then` of `finally`: once its parent resolved, the result is settled
   * from the cell; if its parent rejected, the result is untouched.
   */
  lemma FinallySecondStage(w: World, c1: nat, cell: nat, result: nat, fuel: nat)
    requires c1 < |w.promises| && w.promises[c1].state != Pending && w.promises[c1].handlers == []
    requires !IsThenable(w.promises[c1].value)
    requires result < |w.promises| && w.promises[result] == Fresh
    requires cell < |w.finallyCells| && !IsThenable(w.finallyCells[cell].val) && fuel >= 1
    ensures var second := Then(w, c1, Some(FinallyReplay(cell, result)), None, fuel);
            var fc := w.finallyCells[cell];
            second.0.promises[result]
            == if w.promises[c1].state == Resolved
               then PromiseRec(if fc.isRejected then Rejected else Resolved, fc.val, [])
               else Fresh
  {
    var rec := w.promises[c1];
    var fc := w.finallyCells[cell];
    var replay := Some(FinallyReplay(cell, result));
    var c2 := |w.promises|;
    ThenOnSettled(w, c1, replay, None, fuel);
    var w6 := Put(Push(w), c1, rec.(handlers := [ThenHandler(c2, replay, None)]));
    if rec.state == Resolved {
      var st: Terminal := if fc.isRejected then Rejected else Resolved;
      SettleQuiet(w6, result, st, fc.val, fuel);
      var w7 := Put(w6, result, PromiseRec(st, fc.val, []));
      assert Invoke(w6, replay.value, rec.value, fuel) == (w7, Return(Undefined));
      SettleQuiet(w7, c2, Resolved, Undefined, fuel);
    } else {
      SettleQuiet(w6, c2, Rejected, rec.value, fuel);
    }
  }

  /**
   * `finally` on a settled parent whose callback returns (or that has none) ends
   * with the parent's own state and value; the callback's return value is dropped.
   */
  lemma FinallyReplaysOutcome(w: World, p: nat, onfinally: Option<() -> Outcome>, fuel: nat)
    requires p < |w.promises| && w.promises[p].state != Pending && w.promises[p].handlers == []
    requires !IsThenable(w.promises[p].value) && fuel >= 1
    requires onfinally.None? || onfinally.value().Return?
    ensures var r := Finally(w, p, onfinally, fuel);
            r.0.promises[r.1] == PromiseRec(w.promises[p].state, w.promises[p].value, [])
  {
    var w2 := Prepared(w);
    var cell := |w.finallyCells|;
    var result := |w.promises|;
    FinallyFirstStage(w2, p, cell, result, onfinally, fuel);
    var first := Then(w2, p, Some(FinallyRecord(cell, false, onfinally)), Some(FinallyRecord(cell, true, onfinally)), fuel);
    FinallySecondStage(first.0, first.1, cell, result, fuel);
  }

  /**
   * When the `finally` callback throws on a settled parent, the result is still
   * pending when `finally` returns; the throw only rejects an internal child.
   */
  lemma FinallyThrowLeavesPending(w: World, p: nat, onfinally: () -> Outcome, fuel: nat)
    requires p < |w.promises| && w.promises[p].state != Pending && w.promises[p].handlers == []
    requires !IsThenable(w.promises[p].value)
    requires onfinally().Throw? && !IsThenable(onfinally().error) && fuel >= 1
    ensures var r := Finally(w, p, Some(onfinally), fuel);
            r.0.promises[r.1] == Fresh
  {
    var w2 := Prepared(w);
    var cell := |w.finallyCells|;
    var result := |w.promises|;
    FinallyFirstStage(w2, p, cell, result, Some(onfinally), fuel);
    var first := Then(w2, p, Some(FinallyRecord(cell, false, Some(onfinally))), Some(FinallyRecord(cell, true, Some(onfinally))), fuel);
    FinallySecondStage(first.0, first.1, cell, result, fuel);
  }
  /**
   * The same for a parent that is still pending when `finally` is called: the
   * result is pending when `finally` returns, and when the parent settles later the
   * throw of `onfinally` only rejects the internal children, never the result.
   */
  lemma FinallyThrowOnPendingParent(w: World, p: nat, onfinally: () -> Outcome, st: Terminal, v: Value, fuel: nat)
    requires p < |w.promises| && w.promises[p].state == Pending && w.promises[p].handlers == []
    requires !IsThenable(v) && onfinally().Throw? && !IsThenable(onfinally().error) && fuel >= 3
    ensures var r := Finally(w, p, Some(onfinally), fuel);
            && r.0.promises[r.1] == Fresh
            && SetResult(r.0, p, st, v, fuel).promises[r.1] == Fresh
  {
    var e := onfinally().error;
    var result := |w.promises|;
    var cell := |w.finallyCells|;
    var w2 := Prepared(w);
    var recF := Some(FinallyRecord(cell, false, Some(onfinally)));
    var recR := Some(FinallyRecord(cell, true, Some(onfinally)));
    var c1 := result + 1;
    var h1 := ThenHandler(c1, recF, recR);
    var w3 := Put(Push(w2), p, w.promises[p].(handlers := [h1]));
    assert Then(w2, p, recF, recR, fuel).0 == w3 by {
      ThenOnPending(w2, p, recF, recR, fuel);
      assert w2.promises[p].handlers + [h1] == [h1];
    }
    var replay := Some(FinallyReplay(cell, result));
    var c2 := c1 + 1;
    var h2 := ThenHandler(c2, replay, None);
    var w4 := Put(Push(w3), c1, Fresh.(handlers := [h2]));
    assert Then(w3, c1, replay, None, fuel).0 == w4 by {
      ThenOnPending(w3, c1, replay, None, fuel);
      assert |w3.promises| == c2 && w3.promises[c1] == Fresh;
      assert Fresh.handlers + [h2] == [h2];
    }
    assert Finally(w, p, Some(onfinally), fuel).0 == w4;
    var w5 := Put(w4, p, PromiseRec(st, v, [h1]));
    var w6 := w5.(finallyCells := w5.finallyCells[cell := FinallyCell(v, st == Rejected)]);
    assert Invoke(w5, Chosen(recF, recR, st).value, v, fuel - 1) == (w6, Throw(e));
    var w7 := Put(w6, c1, PromiseRec(Rejected, e, [h2]));
    var w8 := Put(w7, c2, PromiseRec(Rejected, e, []));
    assert SetResult(w6, c1, Rejected, e, fuel - 1) == Put(w8, c1, w8.promises[c1].(handlers := [])) by {
      SettleRunsOne(w6, c1, h2, Rejected, e, fuel - 1);
      SettleQuiet(w7, c2, Rejected, e, fuel - 2);
    }
    var w9 := Put(w8, c1, PromiseRec(Rejected, e, []));
    assert RunReaction(w5, Selected(h1, st).value, v, fuel - 1) == w9;
    assert SetResult(w4, p, st, v, fuel) == Put(w9, p, w9.promises[p].(handlers := [])) by {
      SettleRunsOne(w4, p, h1, st, v, fuel);
    }
  }
}
