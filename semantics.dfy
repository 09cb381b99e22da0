/**
 * The behaviour of SyncPromise as functions of the store.
 *
 * Each function gives the store after one operation of the implementation.
 * Settlement runs continuations synchronously, so one call can cascade through
 * many promises; `fuel` bounds the nesting depth of settlements (each call of
 * `SetResult` inside another uses one unit, and with none left a settlement does
 * nothing), which stands in for the finite call stack of the host.
 */
module Semantics {
  import opened Values

  /**
   * `_setResult(state, value)`: ignored once settled; a thenable is adopted by
   * subscribing this promise's `_resolve`/`_reject` to it; anything else settles the
   * promise and drains its handlers.
   */
  function SetResult(w: World, p: nat, st: Terminal, v: Value, fuel: nat): (r: World)
    decreases fuel, 0, 0
    ensures Advances(w, r)
  {
    if fuel == 0 || p >= |w.promises| || w.promises[p].state != Pending then w
    else if IsThenable(v) then
      Then(w, v.promise, Some(SettleWith(p, Resolved)), Some(SettleWith(p, Rejected)), fuel - 1).0
    else
      ExecuteHandlers(Put(w, p, w.promises[p].(state := st, value := v)), p, fuel - 1)
  }

  /**
   * `then(onfulfilled, onrejected)`: a new pending promise, and a handler on `p`
   * whose two halves settle it; returns the store and the new promise's id. An id
   * `p` beyond the store stands for a thenable that is not a SyncPromise: it gets
   * no handler and never calls back.
   */
  function Then(w: World, p: nat, onF: Option<Callback>, onR: Option<Callback>, fuel: nat): (r: (World, nat))
    decreases fuel, 6, 0
    ensures r.1 == |w.promises| < |r.0.promises|
    ensures Advances(w, r.0)
  {
    var child := |w.promises|;
    if p < child then (AttachHandler(Push(w), p, ThenHandler(child, onF, onR), fuel), child)
    else (Push(w), child)
  }

  /** The handler `then` attaches to its parent for the child `child`. */
  function ThenHandler(child: nat, onF: Option<Callback>, onR: Option<Callback>): Handler
  {
    Handler(Some(OnFulfilled(child, onF)), Some(OnRejected(child, onR)))
  }

  /** `_attachHandler(handler)`: append to the queue, then try to drain it. */
  function AttachHandler(w: World, p: nat, h: Handler, fuel: nat): (r: World)
    decreases fuel, 5, 0
    ensures Advances(w, r)
  {
    if p >= |w.promises| then w
    else ExecuteHandlers(Put(w, p, w.promises[p].(handlers := w.promises[p].handlers + [h])), p, fuel)
  }

  /**
   * `_executeHandlers()`: nothing while pending; otherwise run the matching half of
   * every queued handler, in order, then empty the queue.
   */
  function ExecuteHandlers(w: World, p: nat, fuel: nat): (r: World)
    decreases fuel, 4, 0
    ensures Advances(w, r)
  {
    if p >= |w.promises| || w.promises[p].state == Pending then w
    else
      var rec := w.promises[p];
      var w1 := RunHandlers(w, rec.handlers, rec.state, rec.value, fuel);
      Put(w1, p, w1.promises[p].(handlers := []))
  }

  /** The half of handler `h` a promise in state `st` calls. */
  function Selected(h: Handler, st: State): Option<Reaction>
  {
    if st == Rejected then h.onrejected else h.onfulfilled
  }

  /** The `forEach` of `_executeHandlers` over `hs`, skipping handlers without the half it calls. */
  function RunHandlers(w: World, hs: seq<Handler>, st: State, v: Value, fuel: nat): (r: World)
    decreases fuel, 3, |hs|
    ensures Advances(w, r)
  {
    if hs == [] then w
    else
      var w1 := RunHandlers(w, hs[..|hs| - 1], st, v, fuel);
      match Selected(hs[|hs| - 1], st)
      case None => w1
      case Some(reaction) => RunReaction(w1, reaction, v, fuel)
  }

  /**
   * One half of a `then` handler called with the parent's value or reason: without
   * a callback it passes the argument on; with one, its return value resolves the
   * child and a throw rejects it.
   */
  function RunReaction(w: World, reaction: Reaction, v: Value, fuel: nat): (r: World)
    decreases fuel, 2, 0
    ensures Advances(w, r)
  {
    match reaction.callback
    case None => SetResult(w, reaction.child, PassThrough(reaction), v, fuel)
    case Some(cb) =>
      var called := Invoke(w, cb, v, fuel);
      match called.1
      case Return(x) => SetResult(called.0, reaction.child, Resolved, x, fuel)
      case Throw(e) => SetResult(called.0, reaction.child, Rejected, e, fuel)
  }

  /** `all`'s closure stores `v` at position `index` and counts one element down. */
  function StoreResult(cell: AllCell, index: nat, v: Value): AllCell
  {
    AllCell(cell.counter - 1, if index < |cell.results| then cell.results[index := v] else cell.results)
  }

  /** Calling callback `cb` with `arg`: the store afterwards and what the call returned or threw. */
  function Invoke(w: World, cb: Callback, arg: Value, fuel: nat): (r: (World, Outcome))
    decreases fuel, 1, 0
    ensures Advances(w, r.0)
  {
    match cb
    case User(f) => (w, f(arg))
    case SettleWith(target, st) => (SetResult(w, target, st, arg, fuel), Return(Undefined))
    case AllStore(c, index, aggregate) =>
      if c >= |w.allCells| then (w, Return(Undefined))
      else
        var cell := StoreResult(w.allCells[c], index, arg);
        var w1 := w.(allCells := w.allCells[c := cell]);
        if cell.counter != 0 then (w1, Return(Undefined))
        else (SetResult(w1, aggregate, Resolved, Arr(cell.results), fuel), Return(Undefined))
    case FinallyRecord(c, rejected, onfinally) =>
      var w1 := if c < |w.finallyCells| then w.(finallyCells := w.finallyCells[c := FinallyCell(arg, rejected)]) else w;
      (w1, Called(onfinally))
    case FinallyReplay(c, result) =>
      if c >= |w.finallyCells| then (w, Return(Undefined))
      else
        var cell := w.finallyCells[c];
        (SetResult(w, result, if cell.isRejected then Rejected else Resolved, cell.val, fuel), Return(Undefined))
  }

  /** What the first closure of `finally` hands on: undefined, or what `onfinally` threw. */
  function Called(onfinally: Option<() -> Outcome>): Outcome
  {
    if onfinally.Some? && onfinally.value().Throw? then onfinally.value() else Return(Undefined)
  }

  /** The `resolve`/`reject` calls an executor makes on promise `p`, in order. */
  function RunCalls(w: World, p: nat, calls: seq<Settle>, fuel: nat): (r: World)
    ensures Advances(w, r)
  {
    if calls == [] then w
    else
      var last := calls[|calls| - 1];
      SetResult(RunCalls(w, p, calls[..|calls| - 1], fuel), p, last.state, last.value, fuel)
  }

  /**
   * `new SyncPromise(executor)`: a fresh pending promise, then the executor; a throw
   * out of the executor becomes a call of `_reject`.
   */
  function Construct(w: World, ex: Executor, fuel: nat): (r: (World, nat))
    ensures r.1 == |w.promises| < |r.0.promises|
    ensures Advances(w, r.0)
  {
    var p := |w.promises|;
    var w1 := RunCalls(Push(w), p, ex.calls, fuel);
    (match ex.throws
     case None => w1
     case Some(e) => SetResult(w1, p, Rejected, e, fuel), p)
  }

  /** Static `resolve(value)`: a promise whose executor resolves it with `v`. */
  function Resolve(w: World, v: Value, fuel: nat): (r: (World, nat))
  {
    Construct(w, Executor([Settle(Resolved, v)], None), fuel)
  }

  /** Static `reject(reason)`: a promise whose executor rejects it with `v`. */
  function Reject(w: World, v: Value, fuel: nat): (r: (World, nat))
  {
    Construct(w, Executor([Settle(Rejected, v)], None), fuel)
  }

  /** The callback `function (val) { return val; }` of `catch`. */
  function Identity(v: Value): Outcome
  {
    Return(v)
  }

  /** `catch(onrejected)`. */
  function Catch(w: World, p: nat, onR: Option<Callback>, fuel: nat): (r: (World, nat))
  {
    Then(w, p, Some(User(Identity)), onR, fuel)
  }

  /**
   * `finally(onfinally)`: a result promise and a fresh cell for `val`/`isRejected`;
   * `then` on `p` records the outcome and calls `onfinally`, and a second `then` on
   * that child replays the recorded outcome onto the result.
   */
  function Finally(w: World, p: nat, onfinally: Option<() -> Outcome>, fuel: nat): (r: (World, nat))
    ensures r.1 == |w.promises| < |r.0.promises|
    ensures Advances(w, r.0)
  {
    var result := |w.promises|;
    var w1 := Push(w);
    var cell := |w1.finallyCells|;
    var w2 := w1.(finallyCells := w1.finallyCells + [FinallyCell(Undefined, false)]);
    var first := Then(w2, p, Some(FinallyRecord(cell, false, onfinally)), Some(FinallyRecord(cell, true, onfinally)), fuel);
    var second := Then(first.0, first.1, Some(FinallyReplay(cell, result)), None, fuel);
    (second.0, result)
  }

  /** What `all` does for its element `item` at position `index`. */
  function AttachItem(w: World, item: Value, index: nat, cell: nat, aggregate: nat, fuel: nat): (r: World)
    ensures Advances(w, r)
  {
    var resolved := Resolve(w, item, fuel);
    var stored := Then(resolved.0, resolved.1, Some(AllStore(cell, index, aggregate)), None, fuel);
    Then(stored.0, stored.1, None, Some(SettleWith(aggregate, Rejected)), fuel).0
  }

  /** The `forEach` of `all` over `items`, each at its own position. */
  function AttachItems(w: World, items: seq<Value>, cell: nat, aggregate: nat, fuel: nat): (r: World)
    ensures Advances(w, r)
  {
    if items == [] then w
    else
      var k := |items| - 1;
      var w1 := AttachItems(w, items[..k], cell, aggregate, fuel);
      var w2 := AttachItem(w1, items[k], k, cell, aggregate, fuel);
      AdvancesTransitive(w, w1, w2);
      w2
  }

  /**
   * Static `all(collection)`: a non-array rejects with a TypeError, an empty array
   * resolves to `[]`, otherwise every element is wired to a shared counter and result array.
   */
  function All(w: World, collection: Value, fuel: nat): (r: (World, nat))
    ensures r.1 == |w.promises| < |r.0.promises|
    ensures Advances(w, r.0)
  {
    var aggregate := |w.promises|;
    var w1 := Push(w);
    if !collection.Arr? then (SetResult(w1, aggregate, Rejected, AllTypeError, fuel), aggregate)
    else if |collection.items| == 0 then (SetResult(w1, aggregate, Resolved, Arr([]), fuel), aggregate)
    else
      var n := |collection.items|;
      var cell := |w1.allCells|;
      var w2 := w1.(allCells := w1.allCells + [AllCell(n, Blank(n))]);
      (AttachItems(w2, collection.items, cell, aggregate, fuel), aggregate)
  }
}
