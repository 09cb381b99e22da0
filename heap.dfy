/**
 * The SyncPromise implementation as imperative code over one mutable store.
 *
 * `PromiseHeap` holds the fields of every promise (`_state`, `_value`,
 * `_handlers`) and the variables the closures of `all` and `finally` share.
 * Each method changes them as the implementation does, step by step, and is
 * proved to leave exactly the store the matching function of `Semantics` gives.
 */
module Heap {
  import opened Values
  import Semantics

  class PromiseHeap {
    var promises: seq<PromiseRec>
    var allCells: seq<AllCell>
    var finallyCells: seq<FinallyCell>

    /** The store as a value. */
    function Snapshot(): World
      reads this
    {
      World(promises, allCells, finallyCells)
    }

    constructor ()
      ensures Snapshot() == World([], [], [])
    {
      promises, allCells, finallyCells := [], [], [];
    }

    /** `_setResult`; `_resolve(v)` is `SetResult(p, Resolved, v, _)` and `_reject(v)` is `SetResult(p, Rejected, v, _)`. */
    method SetResult(p: nat, st: Terminal, v: Value, fuel: nat)
      modifies this
      decreases fuel, 0, 0
      ensures Snapshot() == Semantics.SetResult(old(Snapshot()), p, st, v, fuel)
    {
      if fuel == 0 || p >= |promises| || promises[p].state != Pending {
        return;
      }
      if IsThenable(v) {
        var _ := Then(v.promise, Some(SettleWith(p, Resolved)), Some(SettleWith(p, Rejected)), fuel - 1);
        return;
      }
      promises := promises[p := promises[p].(state := st, value := v)];
      ExecuteHandlers(p, fuel - 1);
    }

    /** `then(onfulfilled, onrejected)`. */
    method Then(p: nat, onF: Option<Callback>, onR: Option<Callback>, fuel: nat) returns (child: nat)
      modifies this
      decreases fuel, 6, 0
      ensures (Snapshot(), child) == Semantics.Then(old(Snapshot()), p, onF, onR, fuel)
    {
      child := |promises|;
      promises := promises + [Fresh];
      if p < child {
        AttachHandler(p, Semantics.ThenHandler(child, onF, onR), fuel);
      }
    }

    /** `_attachHandler(handler)`. */
    method AttachHandler(p: nat, h: Handler, fuel: nat)
      modifies this
      decreases fuel, 5, 0
      ensures Snapshot() == Semantics.AttachHandler(old(Snapshot()), p, h, fuel)
    {
      if p < |promises| {
        promises := promises[p := promises[p].(handlers := promises[p].handlers + [h])];
        ExecuteHandlers(p, fuel);
      }
    }

    /** `_executeHandlers()`: the `forEach` over the queue, then the reset to `[]`. */
    method ExecuteHandlers(p: nat, fuel: nat)
      modifies this
      decreases fuel, 4, 0
      ensures Snapshot() == Semantics.ExecuteHandlers(old(Snapshot()), p, fuel)
    {
      if p >= |promises| || promises[p].state == Pending {
        return;
      }
      var st, v, hs := promises[p].state, promises[p].value, promises[p].handlers;
      ghost var w0 := Snapshot();
      var i := 0;
      while i < |hs|
        invariant 0 <= i <= |hs|
        invariant Snapshot() == Semantics.RunHandlers(w0, hs[..i], st, v, fuel)
      {
        assert hs[..i + 1][..i] == hs[..i];
        match Semantics.Selected(hs[i], st) {
          case None =>
          case Some(reaction) => RunReaction(reaction, v, fuel);
        }
        i := i + 1;
      }
      assert hs[..i] == hs;
      promises := promises[p := promises[p].(handlers := [])];
    }

    /** One half of a `then` handler, called with the parent's value or reason. */
    method RunReaction(reaction: Reaction, v: Value, fuel: nat)
      modifies this
      decreases fuel, 2, 0
      ensures Snapshot() == Semantics.RunReaction(old(Snapshot()), reaction, v, fuel)
    {
      match reaction.callback {
        case None =>
          SetResult(reaction.child, PassThrough(reaction), v, fuel);
        case Some(cb) =>
          var out := Invoke(cb, v, fuel);
          match out {
            case Return(x) => SetResult(reaction.child, Resolved, x, fuel);
            case Throw(e) => SetResult(reaction.child, Rejected, e, fuel);
          }
      }
    }

    /** Calls `cb` with `arg`; returns what it returned or threw. */
    method Invoke(cb: Callback, arg: Value, fuel: nat) returns (out: Outcome)
      modifies this
      decreases fuel, 1, 0
      ensures (Snapshot(), out) == Semantics.Invoke(old(Snapshot()), cb, arg, fuel)
    {
      out := Return(Undefined);
      match cb {
        case User(f) =>
          out := f(arg);
        case SettleWith(target, st) =>
          SetResult(target, st, arg, fuel);
        case AllStore(c, index, aggregate) =>
          if c < |allCells| {
            var cell := Semantics.StoreResult(allCells[c], index, arg);
            allCells := allCells[c := cell];
            if cell.counter == 0 {
              SetResult(aggregate, Resolved, Arr(cell.results), fuel);
            }
          }
        case FinallyRecord(c, rejected, onfinally) =>
          if c < |finallyCells| {
            finallyCells := finallyCells[c := FinallyCell(arg, rejected)];
          }
          if onfinally.Some? {
            var called := onfinally.value();
            if called.Throw? {
              out := called;
            }
          }
        case FinallyReplay(c, result) =>
          if c < |finallyCells| {
            var cell := finallyCells[c];
            SetResult(result, if cell.isRejected then Rejected else Resolved, cell.val, fuel);
          }
      }
    }

    /** `new SyncPromise(executor)`: the executor's calls of `resolve`/`reject`, then its throw if any. */
    method Construct(ex: Executor, fuel: nat) returns (p: nat)
      modifies this
      ensures (Snapshot(), p) == Semantics.Construct(old(Snapshot()), ex, fuel)
    {
      p := |promises|;
      promises := promises + [Fresh];
      ghost var w0 := Snapshot();
      for i := 0 to |ex.calls|
        invariant Snapshot() == Semantics.RunCalls(w0, p, ex.calls[..i], fuel)
      {
        assert ex.calls[..i + 1][..i] == ex.calls[..i];
        SetResult(p, ex.calls[i].state, ex.calls[i].value, fuel);
      }
      assert ex.calls[..|ex.calls|] == ex.calls;
      if ex.throws.Some? {
        SetResult(p, Rejected, ex.throws.value, fuel);
      }
    }

    /** Static `resolve(value)`. */
    method StaticResolve(v: Value, fuel: nat) returns (p: nat)
      modifies this
      ensures (Snapshot(), p) == Semantics.Resolve(old(Snapshot()), v, fuel)
    {
      p := Construct(Executor([Settle(Resolved, v)], None), fuel);
    }

    /** Static `reject(reason)`. */
    method StaticReject(v: Value, fuel: nat) returns (p: nat)
      modifies this
      ensures (Snapshot(), p) == Semantics.Reject(old(Snapshot()), v, fuel)
    {
      p := Construct(Executor([Settle(Rejected, v)], None), fuel);
    }

    /** `catch(onrejected)`. */
    method Catch(p: nat, onR: Option<Callback>, fuel: nat) returns (child: nat)
      modifies this
      ensures (Snapshot(), child) == Semantics.Catch(old(Snapshot()), p, onR, fuel)
    {
      child := Then(p, Some(User(Semantics.Identity)), onR, fuel);
    }

    /** `finally(onfinally)`. */
    method Finally(p: nat, onfinally: Option<() -> Outcome>, fuel: nat) returns (result: nat)
      modifies this
      ensures (Snapshot(), result) == Semantics.Finally(old(Snapshot()), p, onfinally, fuel)
    {
      result := |promises|;
      promises := promises + [Fresh];
      var cell := |finallyCells|;
      finallyCells := finallyCells + [FinallyCell(Undefined, false)];
      var first := Then(p, Some(FinallyRecord(cell, false, onfinally)), Some(FinallyRecord(cell, true, onfinally)), fuel);
      var _ := Then(first, Some(FinallyReplay(cell, result)), None, fuel);
    }

    /** Static `all(collection)`: the type check, the empty case, then the `forEach` over the elements. */
    method All(collection: Value, fuel: nat) returns (aggregate: nat)
      modifies this
      ensures (Snapshot(), aggregate) == Semantics.All(old(Snapshot()), collection, fuel)
    {
      aggregate := |promises|;
      promises := promises + [Fresh];
      if !collection.Arr? {
        SetResult(aggregate, Rejected, AllTypeError, fuel);
        return;
      }
      var items := collection.items;
      if |items| == 0 {
        SetResult(aggregate, Resolved, Arr([]), fuel);
        return;
      }
      var cell := |allCells|;
      allCells := allCells + [AllCell(|items|, Blank(|items|))];
      ghost var w0 := Snapshot();
      for index := 0 to |items|
        invariant Snapshot() == Semantics.AttachItems(w0, items[..index], cell, aggregate, fuel)
      {
        assert items[..index + 1][..index] == items[..index];
        var resolved := StaticResolve(items[index], fuel);
        var stored := Then(resolved, Some(AllStore(cell, index, aggregate)), None, fuel);
        var _ := Then(stored, None, Some(SettleWith(aggregate, Rejected)), fuel);
      }
      assert items[..|items|] == items;
    }
  }
}
