/**
 * Laws of static `all`: the type check, the empty array, the countdown over the
 * shared `counter`/`resolvedCollection` cell, and how the aggregate settles.
 */
module AggregationLaws {
  import opened Values
  import opened Semantics
  import opened Steps
  import SettlementLaws
  import ChainingLaws

  /** A settled promise as a record with an empty queue. */
  function Settled(st: Terminal, v: Value): PromiseRec
  {
    PromiseRec(st, v, [])
  }

  // ----- The two early exits -----

  /** A collection that is not an array rejects the aggregate with the TypeError. */
  lemma AllRejectsNonArray(w: World, collection: Value, fuel: nat)
    requires !collection.Arr? && fuel >= 1
    ensures var r := All(w, collection, fuel);
            r.0.promises[r.1] == Settled(Rejected, AllTypeError)
  {
    SettleQuiet(Push(w), |w.promises|, Rejected, AllTypeError, fuel);
  }

  /** An empty array resolves the aggregate with an empty array. */
  lemma AllOfEmpty(w: World, fuel: nat)
    requires fuel >= 1
    ensures var r := All(w, Arr([]), fuel);
            r.0.promises[r.1] == Settled(Resolved, Arr([]))
  {
    SettleQuiet(Push(w), |w.promises|, Resolved, Arr([]), fuel);
  }

  // ----- The countdown, in any order of fulfillment -----

  /**
   * The shared cell after the elements at the positions `order` fulfilled one after
   * another, element `i` with the value `vals[i]`.
   */
  function StoreInOrder(cell: AllCell, order: seq<nat>, vals: seq<Value>): AllCell
    requires forall j :: 0 <= j < |order| ==> order[j] < |vals|
  {
    if order == [] then cell
    else
      var k := |order| - 1;
      StoreResult(StoreInOrder(cell, order[..k], vals), order[k], vals[order[k]])
  }

  /**
   * After `k` fulfillments the counter has dropped by `k` and exactly the positions
   * already fulfilled hold their values; the others are still holes.
   */
  lemma {:induction false} StorePrefix(vals: seq<Value>, order: seq<nat>, k: nat)
    requires k <= |order| && forall j :: 0 <= j < |order| ==> order[j] < |vals|
    ensures var c := StoreInOrder(AllCell(|vals|, Blank(|vals|)), order[..k], vals);
            && c.counter == |vals| - k
            && |c.results| == |vals|
            && forall i :: 0 <= i < |vals| ==> c.results[i] == (if i in order[..k] then vals[i] else Undefined)
  {
    if k > 0 {
      StorePrefix(vals, order, k - 1);
      assert order[..k][..k - 1] == order[..k - 1];
      forall i | 0 <= i < |vals|
        ensures i in order[..k] <==> i in order[..k - 1] || i == order[k - 1]
      {
        assert order[..k] == order[..k - 1] + [order[k - 1]];
      }
    } else {
      assert order[..0] == [];
    }
  }

  /**
   * Whatever order the elements fulfill in, each once, the counter reaches zero
   * only with the last of them, and then every position holds its own element's
   * value.
   */
  lemma StoreInAnyOrder(vals: seq<Value>, order: seq<nat>)
    requires |order| == |vals|
    requires forall j :: 0 <= j < |order| ==> order[j] < |vals|
    requires forall i :: 0 <= i < |vals| ==> i in order
    ensures StoreInOrder(AllCell(|vals|, Blank(|vals|)), order, vals) == AllCell(0, vals)
    ensures forall k :: 0 <= k < |order| ==> StoreInOrder(AllCell(|vals|, Blank(|vals|)), order[..k], vals).counter != 0
  {
    StorePrefix(vals, order, |order|);
    assert order[..|order|] == order;
    forall k | 0 <= k < |order|
      ensures StoreInOrder(AllCell(|vals|, Blank(|vals|)), order[..k], vals).counter != 0
    {
      StorePrefix(vals, order, k);
    }
  }

  // ----- One element at a time -----

  /**
   * `then` on a settled parent whose state selects no callback hands the outcome
   * to the child; nothing else in the store changes.
   */
  lemma ThenPassesThrough(w: World, p: nat, onF: Option<Callback>, onR: Option<Callback>, fuel: nat)
    requires p < |w.promises| && w.promises[p].state != Pending && w.promises[p].handlers == []
    requires !IsThenable(w.promises[p].value) && ChainingLaws.Chosen(onF, onR, w.promises[p].state) == None && fuel >= 1
    ensures Then(w, p, onF, onR, fuel).0
         == w.(promises := w.promises + [Settled(w.promises[p].state, w.promises[p].value)])
  {
    var rec := w.promises[p];
    var child := |w.promises|;
    var w1 := Put(Push(w), p, rec.(handlers := [ThenHandler(child, onF, onR)]));
    assert Then(w, p, onF, onR, fuel).0 == Put(Put(w1, child, Settled(rec.state, rec.value)), p, rec) by {
      ThenOnSettled(w, p, onF, onR, fuel);
      SettleQuiet(w1, child, rec.state, rec.value, fuel);
    }
    assert Put(Put(w1, child, Settled(rec.state, rec.value)), p, rec).promises
        == w.promises + [Settled(rec.state, rec.value)];
  }

  /** The aggregate's promises once the cell `c` has been stored: resolved with the results when the counter hit zero. */
  function Fire(ps: seq<PromiseRec>, aggregate: nat, c: AllCell): (r: seq<PromiseRec>)
    requires aggregate < |ps|
    ensures |r| == |ps|
  {
    if c.counter == 0 then ps[aggregate := Settled(Resolved, Arr(c.results))] else ps
  }

  /** The `all` callback of a fulfilled element stores its value and counts down, resolving the aggregate at zero. */
  lemma AllStoreFires(w: World, cell: nat, index: nat, aggregate: nat, v: Value, fuel: nat)
    requires cell < |w.allCells| && fuel >= 1
    requires aggregate < |w.promises| && w.promises[aggregate].state == Pending && w.promises[aggregate].handlers == []
    ensures var c := StoreResult(w.allCells[cell], index, v);
            Invoke(w, AllStore(cell, index, aggregate), v, fuel)
              == (World(Fire(w.promises, aggregate, c), w.allCells[cell := c], w.finallyCells), Return(Undefined))
  {
    var c := StoreResult(w.allCells[cell], index, v);
    if c.counter == 0 {
      SettleQuiet(w.(allCells := w.allCells[cell := c]), aggregate, Resolved, Arr(c.results), fuel);
    }
  }

  /**
   * The same with handlers queued on the aggregate: the last store resolves it with
   * the results array, and an earlier one only updates the cell.
   */
  lemma AllStoreSettlesAggregate(w: World, cell: nat, index: nat, aggregate: nat, v: Value, fuel: nat)
    requires cell < |w.allCells| && fuel >= 1
    requires aggregate < |w.promises| && w.promises[aggregate].state == Pending
    ensures var c := StoreResult(w.allCells[cell], index, v);
            var r := Invoke(w, AllStore(cell, index, aggregate), v, fuel);
            && r.1 == Return(Undefined)
            && (c.counter == 0 ==> r.0.promises[aggregate].state == Resolved && r.0.promises[aggregate].value == Arr(c.results))
            && (c.counter != 0 ==> r.0 == w.(allCells := w.allCells[cell := c]))
  {
    var c := StoreResult(w.allCells[cell], index, v);
    if c.counter == 0 {
      SettlementLaws.PlainSettlement(w.(allCells := w.allCells[cell := c]), aggregate, Resolved, Arr(c.results), fuel);
    }
  }

  /**
   * `then(store)` on a fulfilled element: the cell takes the value, the aggregate
   * resolves if that was the last one, and the new child resolves with undefined.
   */
  lemma AllStoreThen(w: World, q: nat, cell: nat, index: nat, aggregate: nat, fuel: nat)
    requires q < |w.promises| && w.promises[q].state == Resolved && w.promises[q].handlers == []
    requires cell < |w.allCells| && fuel >= 1
    requires aggregate < |w.promises| && aggregate != q
    requires w.promises[aggregate].state == Pending && w.promises[aggregate].handlers == []
    ensures var c := StoreResult(w.allCells[cell], index, w.promises[q].value);
            Then(w, q, Some(AllStore(cell, index, aggregate)), None, fuel).0
              == World(Fire(w.promises, aggregate, c) + [Settled(Resolved, Undefined)], w.allCells[cell := c], w.finallyCells)
  {
    var rec := w.promises[q];
    var child := |w.promises|;
    var c := StoreResult(w.allCells[cell], index, rec.value);
    var w1 := Put(Push(w), q, rec.(handlers := [ThenHandler(child, Some(AllStore(cell, index, aggregate)), None)]));
    var w2 := World(Fire(w1.promises, aggregate, c), w.allCells[cell := c], w.finallyCells);
    assert Then(w, q, Some(AllStore(cell, index, aggregate)), None, fuel).0
        == Put(Put(w2, child, Settled(Resolved, Undefined)), q, rec) by {
      ThenOnSettled(w, q, Some(AllStore(cell, index, aggregate)), None, fuel);
      AllStoreFires(w1, cell, index, aggregate, rec.value, fuel);
      SettleQuiet(w2, child, Resolved, Undefined, fuel);
    }
    assert Put(Put(w2, child, Settled(Resolved, Undefined)), q, rec).promises
        == Fire(w.promises, aggregate, c) + [Settled(Resolved, Undefined)];
  }

  /** `then(null, reject)` on a rejected element rejects the aggregate with the same reason. */
  lemma RejectWire(w: World, s: nat, aggregate: nat, fuel: nat)
    requires s < |w.promises| && w.promises[s].state == Rejected && w.promises[s].handlers == []
    requires !IsThenable(w.promises[s].value) && fuel >= 1
    requires aggregate < |w.promises| && aggregate != s
    requires w.promises[aggregate].state == Pending && w.promises[aggregate].handlers == []
    ensures Then(w, s, None, Some(SettleWith(aggregate, Rejected)), fuel).0
         == w.(promises := w.promises[aggregate := Settled(Rejected, w.promises[s].value)] + [Settled(Resolved, Undefined)])
  {
    var rec := w.promises[s];
    var child := |w.promises|;
    var w1 := Put(Push(w), s, rec.(handlers := [ThenHandler(child, None, Some(SettleWith(aggregate, Rejected)))]));
    var w2 := Put(w1, aggregate, Settled(Rejected, rec.value));
    assert Then(w, s, None, Some(SettleWith(aggregate, Rejected)), fuel).0
        == Put(Put(w2, child, Settled(Resolved, Undefined)), s, rec) by {
      ThenOnSettled(w, s, None, Some(SettleWith(aggregate, Rejected)), fuel);
      SettleQuiet(w1, aggregate, Rejected, rec.value, fuel);
      SettleQuiet(w2, child, Resolved, Undefined, fuel);
    }
    assert Put(Put(w2, child, Settled(Resolved, Undefined)), s, rec).promises
        == w.promises[aggregate := Settled(Rejected, rec.value)] + [Settled(Resolved, Undefined)];
  }

  /** What `all` does for one element, given the outcome of each of its three steps. */
  lemma AttachItemBy(w: World, item: Value, index: nat, cell: nat, aggregate: nat, fuel: nat,
                     w1: World, p1: nat, w2: World, p2: nat, w3: World)
    requires Resolve(w, item, fuel) == (w1, p1)
    requires Then(w1, p1, Some(AllStore(cell, index, aggregate)), None, fuel) == (w2, p2)
    requires Then(w2, p2, None, Some(SettleWith(aggregate, Rejected)), fuel).0 == w3
    ensures AttachItem(w, item, index, cell, aggregate, fuel) == w3
  {
  }

  /** Wiring one element that is a plain value: it fulfills at once and is stored at its position. */
  lemma ItemPlain(w: World, item: Value, index: nat, cell: nat, aggregate: nat, fuel: nat)
    requires !IsThenable(item) && cell < |w.allCells| && fuel >= 1
    requires aggregate < |w.promises| && w.promises[aggregate].state == Pending && w.promises[aggregate].handlers == []
    ensures var c := StoreResult(w.allCells[cell], index, item);
            AttachItem(w, item, index, cell, aggregate, fuel)
              == World(Fire(w.promises, aggregate, c)
                         + [Settled(Resolved, item), Settled(Resolved, Undefined), Settled(Resolved, Undefined)],
                       w.allCells[cell := c], w.finallyCells)
  {
    var n0 := |w.promises|;
    var c := StoreResult(w.allCells[cell], index, item);
    var w1 := w.(promises := w.promises + [Settled(Resolved, item)]);
    assert Resolve(w, item, fuel) == (w1, n0) by {
      ConstructSettled(w, Resolved, item, fuel);
    }
    var w2 := World(Fire(w1.promises, aggregate, c) + [Settled(Resolved, Undefined)], w.allCells[cell := c], w.finallyCells);
    assert Then(w1, n0, Some(AllStore(cell, index, aggregate)), None, fuel) == (w2, n0 + 1) by {
      AllStoreThen(w1, n0, cell, index, aggregate, fuel);
    }
    var w3 := w2.(promises := w2.promises + [Settled(Resolved, Undefined)]);
    assert Then(w2, n0 + 1, None, Some(SettleWith(aggregate, Rejected)), fuel).0 == w3 by {
      ThenPassesThrough(w2, n0 + 1, None, Some(SettleWith(aggregate, Rejected)), fuel);
    }
    AttachItemBy(w, item, index, cell, aggregate, fuel, w1, n0, w2, n0 + 1, w3);
    FireAppend(w.promises, aggregate, c, [Settled(Resolved, item)]);
  }

  /**
   * Wiring one element that is an already resolved promise: it is adopted, then
   * fulfils at once and its value is stored at its position.
   */
  lemma ItemResolved(w: World, q: nat, index: nat, cell: nat, aggregate: nat, fuel: nat)
    requires q < |w.promises| && w.promises[q].state == Resolved && w.promises[q].handlers == []
    requires !IsThenable(w.promises[q].value) && cell < |w.allCells| && fuel >= 2
    requires aggregate < |w.promises| && w.promises[aggregate].state == Pending && w.promises[aggregate].handlers == []
    ensures var v := w.promises[q].value;
            var c := StoreResult(w.allCells[cell], index, v);
            AttachItem(w, Thenable(q), index, cell, aggregate, fuel)
              == World(Fire(w.promises, aggregate, c)
                         + [Settled(Resolved, v), Settled(Resolved, Undefined), Settled(Resolved, Undefined), Settled(Resolved, Undefined)],
                       w.allCells[cell := c], w.finallyCells)
  {
    var n0 := |w.promises|;
    var v := w.promises[q].value;
    var c := StoreResult(w.allCells[cell], index, v);
    var adopted := [Settled(Resolved, v), Settled(Resolved, Undefined)];
    var w1 := w.(promises := w.promises + adopted);
    assert Resolve(w, Thenable(q), fuel) == (w1, n0) by {
      SettlementLaws.ConstructAdopts(w, Resolved, q, fuel);
    }
    var w2 := World(Fire(w1.promises, aggregate, c) + [Settled(Resolved, Undefined)], w.allCells[cell := c], w.finallyCells);
    assert Then(w1, n0, Some(AllStore(cell, index, aggregate)), None, fuel) == (w2, n0 + 2) by {
      AllStoreThen(w1, n0, cell, index, aggregate, fuel);
    }
    var w3 := w2.(promises := w2.promises + [Settled(Resolved, Undefined)]);
    assert Then(w2, n0 + 2, None, Some(SettleWith(aggregate, Rejected)), fuel).0 == w3 by {
      assert w2.promises[n0 + 2] == Settled(Resolved, Undefined);
      ThenPassesThrough(w2, n0 + 2, None, Some(SettleWith(aggregate, Rejected)), fuel);
    }
    AttachItemBy(w, Thenable(q), index, cell, aggregate, fuel, w1, n0, w2, n0 + 2, w3);
    FireAppend(w.promises, aggregate, c, adopted);
  }

  /** Storing into the cell does not care about promises created after the aggregate. */
  lemma FireAppend(ps: seq<PromiseRec>, aggregate: nat, c: AllCell, tail: seq<PromiseRec>)
    requires aggregate < |ps|
    ensures Fire(ps + tail, aggregate, c) == Fire(ps, aggregate, c) + tail
  {
    if c.counter == 0 {
      assert (ps + tail)[aggregate := Settled(Resolved, Arr(c.results))]
          == ps[aggregate := Settled(Resolved, Arr(c.results))] + tail;
    }
  }

  /** Wiring one element that is an already rejected promise: the aggregate is rejected with its reason. */
  lemma ItemRejected(w: World, q: nat, index: nat, cell: nat, aggregate: nat, fuel: nat)
    requires q < |w.promises| && w.promises[q].state == Rejected && w.promises[q].handlers == []
    requires !IsThenable(w.promises[q].value) && fuel >= 2
    requires aggregate < |w.promises| && w.promises[aggregate].state == Pending && w.promises[aggregate].handlers == []
    ensures var e := w.promises[q].value;
            AttachItem(w, Thenable(q), index, cell, aggregate, fuel)
              == w.(promises := w.promises[aggregate := Settled(Rejected, e)]
                                + [Settled(Rejected, e), Settled(Resolved, Undefined), Settled(Rejected, e), Settled(Resolved, Undefined)])
  {
    var n0 := |w.promises|;
    var e := w.promises[q].value;
    var w1 := w.(promises := w.promises + [Settled(Rejected, e), Settled(Resolved, Undefined)]);
    assert Resolve(w, Thenable(q), fuel) == (w1, n0) by {
      SettlementLaws.ConstructAdopts(w, Resolved, q, fuel);
    }
    var w2 := w1.(promises := w1.promises + [Settled(Rejected, e)]);
    assert Then(w1, n0, Some(AllStore(cell, index, aggregate)), None, fuel) == (w2, n0 + 2) by {
      ThenPassesThrough(w1, n0, Some(AllStore(cell, index, aggregate)), None, fuel);
    }
    var w3 := w2.(promises := w2.promises[aggregate := Settled(Rejected, e)] + [Settled(Resolved, Undefined)]);
    assert Then(w2, n0 + 2, None, Some(SettleWith(aggregate, Rejected)), fuel).0 == w3 by {
      RejectWire(w2, n0 + 2, aggregate, fuel);
    }
    AttachItemBy(w, Thenable(q), index, cell, aggregate, fuel, w1, n0, w2, n0 + 2, w3);
    assert w3.promises
        == w.promises[aggregate := Settled(Rejected, e)]
           + [Settled(Rejected, e), Settled(Resolved, Undefined), Settled(Rejected, e), Settled(Resolved, Undefined)];
  }

  // ----- The whole `forEach` -----

  /** The `forEach` over the first `k` elements is the one over the first `k - 1`, then element `k - 1`. */
  lemma AttachItemsSnoc(w: World, items: seq<Value>, k: nat, cell: nat, aggregate: nat, fuel: nat)
    requires 0 < k <= |items|
    ensures AttachItems(w, items[..k], cell, aggregate, fuel)
         == AttachItem(AttachItems(w, items[..k - 1], cell, aggregate, fuel), items[k - 1], k - 1, cell, aggregate, fuel)
  {
    assert items[..k][..k - 1] == items[..k - 1];
  }

  /**
   * An element of `all` that fulfils as soon as it is wired on top of `w`: a plain
   * value, or a promise of `w` already resolved with a plain value and with nothing
   * queued, given fuel enough for the adoption.
   */
  predicate FulfilsAtOnce(w: World, x: Value, fuel: nat)
  {
    !IsThenable(x)
    || (&& x.promise < |w.promises| && w.promises[x.promise].state == Resolved
        && w.promises[x.promise].handlers == [] && !IsThenable(w.promises[x.promise].value) && fuel >= 2)
  }

  /** The value element `x` fulfils with: the value of the promise it names, or `x` itself. */
  function Fulfilment(w: World, x: Value): Value
  {
    if x.Thenable? && x.promise < |w.promises| then w.promises[x.promise].value else x
  }

  /** The values the elements of `items` fulfil with, in position order. */
  function Fulfilments(w: World, items: seq<Value>): (vs: seq<Value>)
    ensures |vs| == |items| && forall i :: 0 <= i < |items| ==> vs[i] == Fulfilment(w, items[i])
  {
    seq(|items|, i requires 0 <= i < |items| => Fulfilment(w, items[i]))
  }

  /**
   * The store `r` after the first `k` elements of `items` were wired on top of `w`,
   * each fulfilling at once: the counter has dropped by `k`, their values sit at
   * their positions, the aggregate is resolved with all the values exactly when `k`
   * is the length and pending before, and no other promise of `w` has changed.
   */
  ghost predicate WiredPrefix(w: World, r: World, items: seq<Value>, k: nat, cell: nat, aggregate: nat)
    requires k <= |items|
  {
    && |r.allCells| == |w.allCells| && cell < |r.allCells|
    && r.allCells[cell] == AllCell(|items| - k, Fulfilments(w, items)[..k] + Blank(|items| - k))
    && |w.promises| <= |r.promises| && aggregate < |w.promises|
    && r.promises[aggregate] == (if k == |items| then Settled(Resolved, Arr(Fulfilments(w, items))) else Fresh)
    && forall i :: 0 <= i < |w.promises| && i != aggregate ==> r.promises[i] == w.promises[i]
  }

  /** Storing the value of element `k - 1` and appending `tail` extends the wired prefix by one. */
  lemma WiredPrefixStep(w: World, r1: World, r: World, items: seq<Value>, k: nat, cell: nat, aggregate: nat, tail: seq<PromiseRec>)
    requires 0 < k <= |items| && WiredPrefix(w, r1, items, k - 1, cell, aggregate)
    requires var c := StoreResult(r1.allCells[cell], k - 1, Fulfilment(w, items[k - 1]));
             r == World(Fire(r1.promises, aggregate, c) + tail, r1.allCells[cell := c], r1.finallyCells)
    ensures WiredPrefix(w, r, items, k, cell, aggregate)
  {
    var n := |items|;
    var vs := Fulfilments(w, items);
    var c := StoreResult(r1.allCells[cell], k - 1, Fulfilment(w, items[k - 1]));
    assert c.results == vs[..k] + Blank(n - k);
    if k == n {
      assert vs[..n] + Blank(0) == vs;
    }
  }

  /** The `forEach` of `all` over a prefix of elements that fulfil at once keeps `WiredPrefix`. */
  lemma {:induction false} AllPrefix(w: World, items: seq<Value>, k: nat, cell: nat, aggregate: nat, fuel: nat)
    requires 0 < |items| && k <= |items| && forall i :: 0 <= i < k ==> FulfilsAtOnce(w, items[i], fuel)
    requires cell < |w.allCells| && w.allCells[cell] == AllCell(|items|, Blank(|items|))
    requires aggregate < |w.promises| && w.promises[aggregate] == Fresh && fuel >= 1
    ensures WiredPrefix(w, AttachItems(w, items[..k], cell, aggregate, fuel), items, k, cell, aggregate)
  {
    if k == 0 {
      assert items[..0] == [];
      assert [] + Blank(|items|) == Blank(|items|);
    } else {
      AllPrefix(w, items, k - 1, cell, aggregate, fuel);
      var item := items[k - 1];
      var r1 := AttachItems(w, items[..k - 1], cell, aggregate, fuel);
      var c := StoreResult(r1.allCells[cell], k - 1, Fulfilment(w, item));
      var r := AttachItems(w, items[..k], cell, aggregate, fuel);
      assert r == AttachItem(r1, item, k - 1, cell, aggregate, fuel) by {
        AttachItemsSnoc(w, items, k, cell, aggregate, fuel);
      }
      assert FulfilsAtOnce(w, item, fuel);
      if IsThenable(item) {
        var q := item.promise;
        var tail := [Settled(Resolved, w.promises[q].value), Settled(Resolved, Undefined), Settled(Resolved, Undefined), Settled(Resolved, Undefined)];
        assert r == World(Fire(r1.promises, aggregate, c) + tail, r1.allCells[cell := c], r1.finallyCells) by {
          assert r1.promises[q] == w.promises[q];
          ItemResolved(r1, q, k - 1, cell, aggregate, fuel);
        }
        WiredPrefixStep(w, r1, r, items, k, cell, aggregate, tail);
      } else {
        var tail := [Settled(Resolved, item), Settled(Resolved, Undefined), Settled(Resolved, Undefined)];
        assert r == World(Fire(r1.promises, aggregate, c) + tail, r1.allCells[cell := c], r1.finallyCells) by {
          ItemPlain(r1, item, k - 1, cell, aggregate, fuel);
        }
        WiredPrefixStep(w, r1, r, items, k, cell, aggregate, tail);
      }
    }
  }

  /** Wiring one more element only advances the store. */
  lemma AttachItemsStep(w: World, items: seq<Value>, m: nat, cell: nat, aggregate: nat, fuel: nat)
    requires 0 < m <= |items|
    ensures Advances(AttachItems(w, items[..m - 1], cell, aggregate, fuel), AttachItems(w, items[..m], cell, aggregate, fuel))
  {
    AttachItemsSnoc(w, items, m, cell, aggregate, fuel);
  }

  /** Promise `p` of `r` exists and has state `st` and value `v`. */
  predicate Holds(r: World, p: nat, st: State, v: Value)
  {
    p < |r.promises| && r.promises[p].state == st && r.promises[p].value == v
  }

  /** Along a run of stores each advancing the one before, a settled promise keeps its state and value. */
  lemma {:induction false} HoldsAlong(ws: seq<World>, j: nat, m: nat, p: nat, st: Terminal, v: Value)
    requires j <= m < |ws| && forall i :: 0 < i < |ws| ==> Advances(ws[i - 1], ws[i])
    requires Holds(ws[j], p, st, v)
    ensures Holds(ws[m], p, st, v)
    decreases m - j
  {
    if m > j {
      HoldsAlong(ws, j, m - 1, p, st, v);
      assert Advances(ws[m - 1], ws[m]);
    }
  }

  /** The stores after each prefix of the `forEach` of `all`. */
  ghost function Stages(w: World, items: seq<Value>, cell: nat, aggregate: nat, fuel: nat): (ws: seq<World>)
    ensures |ws| == |items| + 1
    ensures forall i :: 0 <= i <= |items| ==> ws[i] == AttachItems(w, items[..i], cell, aggregate, fuel)
  {
    seq(|items| + 1, i requires 0 <= i <= |items| => AttachItems(w, items[..i], cell, aggregate, fuel))
  }

  /** Every stage of the `forEach` advances the one before it. */
  lemma StagesAdvance(w: World, items: seq<Value>, cell: nat, aggregate: nat, fuel: nat)
    ensures var ws := Stages(w, items, cell, aggregate, fuel);
            forall i :: 0 < i < |ws| ==> Advances(ws[i - 1], ws[i])
  {
    var ws := Stages(w, items, cell, aggregate, fuel);
    forall i | 0 < i < |ws|
      ensures Advances(ws[i - 1], ws[i])
    {
      AttachItemsStep(w, items, i, cell, aggregate, fuel);
    }
  }

  /**
   * Allocating the aggregate at the end of the store changes neither which elements
   * fulfil at once nor the values they fulfil with.
   */
  lemma FulfilsAfterPush(w: World, w2: World, items: seq<Value>, k: nat, fuel: nat)
    requires w2.promises == w.promises + [Fresh] && k <= |items|
    requires forall i :: 0 <= i < k ==> FulfilsAtOnce(w, items[i], fuel)
    ensures forall i :: 0 <= i < k ==> FulfilsAtOnce(w2, items[i], fuel)
    ensures k == |items| ==> Fulfilments(w2, items) == Fulfilments(w, items)
  {
    forall i | 0 <= i < k
      ensures FulfilsAtOnce(w2, items[i], fuel) && Fulfilment(w2, items[i]) == Fulfilment(w, items[i])
    {
      if IsThenable(items[i]) {
        assert w2.promises[items[i].promise] == w.promises[items[i].promise];
      }
    }
  }

  /**
   * `all` of elements that fulfil at once (plain values, or promises already
   * resolved) resolves with the value of each element at its own position.
   */
  lemma AllResolvesInOrder(w: World, items: seq<Value>, fuel: nat)
    requires |items| > 0 && (forall i :: 0 <= i < |items| ==> FulfilsAtOnce(w, items[i], fuel)) && fuel >= 1
    ensures var r := All(w, Arr(items), fuel);
            r.0.promises[r.1] == Settled(Resolved, Arr(Fulfilments(w, items)))
  {
    var n := |items|;
    var w2 := Push(w).(allCells := w.allCells + [AllCell(n, Blank(n))]);
    FulfilsAfterPush(w, w2, items, n, fuel);
    AllPrefix(w2, items, n, |w.allCells|, |w.promises|, fuel);
    assert items[..n] == items;
  }

  /** `all` of plain values resolves with exactly those values. */
  lemma AllOfPlainValues(w: World, items: seq<Value>, fuel: nat)
    requires |items| > 0 && (forall i :: 0 <= i < |items| ==> !IsThenable(items[i])) && fuel >= 1
    ensures var r := All(w, Arr(items), fuel);
            r.0.promises[r.1] == Settled(Resolved, Arr(items))
  {
    AllResolvesInOrder(w, items, fuel);
    assert Fulfilments(w, items) == items;
  }

  /** `all([resolve(x), resolve(y), z])` of plain values resolves with `[x, y, z]`. */
  lemma AllOfResolvedPromises(w: World, x: Value, y: Value, z: Value, fuel: nat)
    requires !IsThenable(x) && !IsThenable(y) && !IsThenable(z) && fuel >= 2
    ensures var a := Resolve(w, x, fuel);
            var b := Resolve(a.0, y, fuel);
            var r := All(b.0, Arr([Thenable(a.1), Thenable(b.1), z]), fuel);
            r.0.promises[r.1] == Settled(Resolved, Arr([x, y, z]))
  {
    var n := |w.promises|;
    var wa := w.(promises := w.promises + [Settled(Resolved, x)]);
    assert Resolve(w, x, fuel) == (wa, n) by {
      ConstructSettled(w, Resolved, x, fuel);
    }
    var wb := wa.(promises := wa.promises + [Settled(Resolved, y)]);
    assert Resolve(wa, y, fuel) == (wb, n + 1) by {
      ConstructSettled(wa, Resolved, y, fuel);
    }
    var items := [Thenable(n), Thenable(n + 1), z];
    assert wb.promises[n] == Settled(Resolved, x) && wb.promises[n + 1] == Settled(Resolved, y);
    assert forall i :: 0 <= i < |items| ==> FulfilsAtOnce(wb, items[i], fuel);
    AllResolvesInOrder(wb, items, fuel);
    assert Fulfilments(wb, items) == [x, y, z];
  }

  /** Wiring a rejected promise after a prefix of elements that fulfil at once rejects the aggregate with its reason. */
  lemma RejectionAfterPrefix(w: World, items: seq<Value>, k: nat, q: nat, cell: nat, aggregate: nat, fuel: nat)
    requires k < |items| && (forall i :: 0 <= i < k ==> FulfilsAtOnce(w, items[i], fuel)) && items[k] == Thenable(q)
    requires cell < |w.allCells| && w.allCells[cell] == AllCell(|items|, Blank(|items|))
    requires aggregate < |w.promises| && w.promises[aggregate] == Fresh && q != aggregate
    requires q < |w.promises| && w.promises[q].state == Rejected && w.promises[q].handlers == []
    requires !IsThenable(w.promises[q].value) && fuel >= 2
    ensures AttachItems(w, items[..k + 1], cell, aggregate, fuel).promises[aggregate] == Settled(Rejected, w.promises[q].value)
  {
    var r1 := AttachItems(w, items[..k], cell, aggregate, fuel);
    assert WiredPrefix(w, r1, items, k, cell, aggregate) by {
      AllPrefix(w, items, k, cell, aggregate, fuel);
    }
    AttachItemsSnoc(w, items, k + 1, cell, aggregate, fuel);
    ItemRejected(r1, q, k, cell, aggregate, fuel);
  }

  /**
   * When element `k` is a rejected promise and the ones before it fulfil at once,
   * the aggregate is rejected with that promise's reason, whatever follows it.
   */
  lemma AllFirstRejectionWins(w: World, items: seq<Value>, k: nat, q: nat, fuel: nat)
    requires k < |items| && (forall i :: 0 <= i < k ==> FulfilsAtOnce(w, items[i], fuel)) && items[k] == Thenable(q)
    requires q < |w.promises| && w.promises[q].state == Rejected && w.promises[q].handlers == []
    requires !IsThenable(w.promises[q].value) && fuel >= 2
    ensures var r := All(w, Arr(items), fuel);
            r.0.promises[r.1].state == Rejected && r.0.promises[r.1].value == w.promises[q].value
  {
    var n := |items|;
    var cell := |w.allCells|;
    var aggregate := |w.promises|;
    var w2 := Push(w).(allCells := w.allCells + [AllCell(n, Blank(n))]);
    FulfilsAfterPush(w, w2, items, k, fuel);
    assert AttachItems(w2, items[..k + 1], cell, aggregate, fuel).promises[aggregate] == Settled(Rejected, w.promises[q].value) by {
      RejectionAfterPrefix(w2, items, k, q, cell, aggregate, fuel);
    }
    var ws := Stages(w2, items, cell, aggregate, fuel);
    StagesAdvance(w2, items, cell, aggregate, fuel);
    HoldsAlong(ws, k + 1, n, aggregate, Rejected, w.promises[q].value);
    assert items[..n] == items;
  }
}
