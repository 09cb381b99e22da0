/**
 * The invariant adoption keeps: no settled promise ever holds a thenable as its
 * value, because `_setResult` subscribes to a thenable instead of storing it.
 * Each lemma follows the recursion of the function it is about.
 */
module CoherenceLaws {
  import opened Values
  import opened Semantics

  lemma {:induction false} SetResultCoherent(w: World, p: nat, st: Terminal, v: Value, fuel: nat)
    requires Coherent(w)
    ensures Coherent(SetResult(w, p, st, v, fuel))
    decreases fuel, 0, 0
  {
    if fuel == 0 || p >= |w.promises| || w.promises[p].state != Pending {
    } else if IsThenable(v) {
      ThenCoherent(w, v.promise, Some(SettleWith(p, Resolved)), Some(SettleWith(p, Rejected)), fuel - 1);
    } else {
      var rec := w.promises[p].(state := st, value := v);
      CoherentPut(w, p, rec);
      ExecuteHandlersCoherent(Put(w, p, rec), p, fuel - 1);
    }
  }

  lemma {:induction false} ThenCoherent(w: World, p: nat, onF: Option<Callback>, onR: Option<Callback>, fuel: nat)
    requires Coherent(w)
    ensures Coherent(Then(w, p, onF, onR, fuel).0)
    decreases fuel, 6, 0
  {
    CoherentPush(w);
    if p < |w.promises| {
      AttachHandlerCoherent(Push(w), p, ThenHandler(|w.promises|, onF, onR), fuel);
    }
  }

  lemma {:induction false} AttachHandlerCoherent(w: World, p: nat, h: Handler, fuel: nat)
    requires Coherent(w)
    ensures Coherent(AttachHandler(w, p, h, fuel))
    decreases fuel, 5, 0
  {
    if p < |w.promises| {
      CoherentRequeue(w, p, w.promises[p].handlers + [h]);
      ExecuteHandlersCoherent(Put(w, p, w.promises[p].(handlers := w.promises[p].handlers + [h])), p, fuel);
    }
  }

  lemma {:induction false} ExecuteHandlersCoherent(w: World, p: nat, fuel: nat)
    requires Coherent(w)
    ensures Coherent(ExecuteHandlers(w, p, fuel))
    decreases fuel, 4, 0
  {
    if p < |w.promises| && w.promises[p].state != Pending {
      var rec := w.promises[p];
      RunHandlersCoherent(w, rec.handlers, rec.state, rec.value, fuel);
      var w1 := RunHandlers(w, rec.handlers, rec.state, rec.value, fuel);
      CoherentRequeue(w1, p, []);
    }
  }

  lemma {:induction false} RunHandlersCoherent(w: World, hs: seq<Handler>, st: State, v: Value, fuel: nat)
    requires Coherent(w)
    ensures Coherent(RunHandlers(w, hs, st, v, fuel))
    decreases fuel, 3, |hs|
  {
    if hs != [] {
      RunHandlersCoherent(w, hs[..|hs| - 1], st, v, fuel);
      var w1 := RunHandlers(w, hs[..|hs| - 1], st, v, fuel);
      match Selected(hs[|hs| - 1], st)
      case None =>
      case Some(reaction) => RunReactionCoherent(w1, reaction, v, fuel);
    }
  }

  lemma {:induction false} RunReactionCoherent(w: World, reaction: Reaction, v: Value, fuel: nat)
    requires Coherent(w)
    ensures Coherent(RunReaction(w, reaction, v, fuel))
    decreases fuel, 2, 0
  {
    match reaction.callback
    case None => SetResultCoherent(w, reaction.child, PassThrough(reaction), v, fuel);
    case Some(cb) =>
      InvokeCoherent(w, cb, v, fuel);
      var called := Invoke(w, cb, v, fuel);
      match called.1
      case Return(x) => SetResultCoherent(called.0, reaction.child, Resolved, x, fuel);
      case Throw(e) => SetResultCoherent(called.0, reaction.child, Rejected, e, fuel);
  }

  lemma {:induction false} InvokeCoherent(w: World, cb: Callback, arg: Value, fuel: nat)
    requires Coherent(w)
    ensures Coherent(Invoke(w, cb, arg, fuel).0)
    decreases fuel, 1, 0
  {
    match cb
    case User(f) =>
    case SettleWith(target, st) => SetResultCoherent(w, target, st, arg, fuel);
    case AllStore(c, index, aggregate) =>
      if c < |w.allCells| {
        var cell := StoreResult(w.allCells[c], index, arg);
        var w1 := w.(allCells := w.allCells[c := cell]);
        assert w1.promises == w.promises;
        if cell.counter == 0 {
          SetResultCoherent(w1, aggregate, Resolved, Arr(cell.results), fuel);
        }
      }
    case FinallyRecord(c, rejected, onfinally) =>
    case FinallyReplay(c, result) =>
      if c < |w.finallyCells| {
        var cell := w.finallyCells[c];
        SetResultCoherent(w, result, if cell.isRejected then Rejected else Resolved, cell.val, fuel);
      }
  }

  lemma {:induction false} RunCallsCoherent(w: World, p: nat, calls: seq<Settle>, fuel: nat)
    requires Coherent(w)
    ensures Coherent(RunCalls(w, p, calls, fuel))
  {
    if calls != [] {
      RunCallsCoherent(w, p, calls[..|calls| - 1], fuel);
      var last := calls[|calls| - 1];
      SetResultCoherent(RunCalls(w, p, calls[..|calls| - 1], fuel), p, last.state, last.value, fuel);
    }
  }

  /** Constructing a promise, and so static `resolve`/`reject`, keeps the store coherent. */
  lemma ConstructCoherent(w: World, ex: Executor, fuel: nat)
    requires Coherent(w)
    ensures Coherent(Construct(w, ex, fuel).0)
  {
    CoherentPush(w);
    RunCallsCoherent(Push(w), |w.promises|, ex.calls, fuel);
    if ex.throws.Some? {
      SetResultCoherent(RunCalls(Push(w), |w.promises|, ex.calls, fuel), |w.promises|, Rejected, ex.throws.value, fuel);
    }
  }

  /** `finally` keeps the store coherent. */
  lemma FinallyCoherent(w: World, p: nat, onfinally: Option<() -> Outcome>, fuel: nat)
    requires Coherent(w)
    ensures Coherent(Finally(w, p, onfinally, fuel).0)
  {
    CoherentPush(w);
    var w1 := Push(w);
    var cell := |w1.finallyCells|;
    var w2 := w1.(finallyCells := w1.finallyCells + [FinallyCell(Undefined, false)]);
    assert w2.promises == w1.promises;
    ThenCoherent(w2, p, Some(FinallyRecord(cell, false, onfinally)), Some(FinallyRecord(cell, true, onfinally)), fuel);
    var first := Then(w2, p, Some(FinallyRecord(cell, false, onfinally)), Some(FinallyRecord(cell, true, onfinally)), fuel);
    ThenCoherent(first.0, first.1, Some(FinallyReplay(cell, |w.promises|)), None, fuel);
  }

  lemma {:induction false} AttachItemsCoherent(w: World, items: seq<Value>, cell: nat, aggregate: nat, fuel: nat)
    requires Coherent(w)
    ensures Coherent(AttachItems(w, items, cell, aggregate, fuel))
  {
    if items != [] {
      var k := |items| - 1;
      AttachItemsCoherent(w, items[..k], cell, aggregate, fuel);
      var w1 := AttachItems(w, items[..k], cell, aggregate, fuel);
      ConstructCoherent(w1, Executor([Settle(Resolved, items[k])], None), fuel);
      var resolved := Resolve(w1, items[k], fuel);
      ThenCoherent(resolved.0, resolved.1, Some(AllStore(cell, k, aggregate)), None, fuel);
      var stored := Then(resolved.0, resolved.1, Some(AllStore(cell, k, aggregate)), None, fuel);
      ThenCoherent(stored.0, stored.1, None, Some(SettleWith(aggregate, Rejected)), fuel);
    }
  }

  /** Static `all` keeps the store coherent. */
  lemma AllCoherent(w: World, collection: Value, fuel: nat)
    requires Coherent(w)
    ensures Coherent(All(w, collection, fuel).0)
  {
    CoherentPush(w);
    var w1 := Push(w);
    if !collection.Arr? {
      SetResultCoherent(w1, |w.promises|, Rejected, AllTypeError, fuel);
    } else if |collection.items| == 0 {
      SetResultCoherent(w1, |w.promises|, Resolved, Arr([]), fuel);
    } else {
      var n := |collection.items|;
      var w2 := w1.(allCells := w1.allCells + [AllCell(n, Blank(n))]);
      assert w2.promises == w1.promises;
      AttachItemsCoherent(w2, collection.items, |w1.allCells|, |w.promises|, fuel);
    }
  }
}
