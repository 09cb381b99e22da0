/**
 * The data model of a synchronous promise store.
 *
 * Every SyncPromise instance is a record (its `_state`, `_value` and `_handlers`)
 * held in a store and named by its index there. The closures the implementation
 * creates (the two halves of a `then` handler, a promise's own `_resolve` and
 * `_reject`, the per-element closure of `all`, the two closures of `finally`) are
 * represented as data, so that running one is a function of the store.
 */
module Values {

  datatype Option<+T> = None | Some(value: T)

  /** The three states of a promise. */
  datatype State = Pending | Resolved | Rejected

  /** A state a promise can settle into. */
  type Terminal = s: State | s != Pending witness Resolved

  /**
   * Values that flow through promises. `Thenable(p)` is a reference to the promise
   * with id `p`; it is the only value that has a `then` member. An id that names no
   * promise of the store stands for a foreign thenable that never calls back.
   */
  datatype Value =
    | Undefined
    | Num(n: int)
    | Text(s: string)
    | TypeError(message: string)
    | Arr(items: seq<Value>)
    | Thenable(promise: nat)

  /** What a user callback does: return a value or throw one. */
  datatype Outcome = Return(value: Value) | Throw(error: Value)

  /**
   * A callable passed as `onfulfilled` or `onrejected` to `then`.
   *  - User(f): caller code, a pure function of its argument;
   *  - SettleWith(target, state): the `_resolve` (state Resolved) or `_reject`
   *    (state Rejected) capability of promise `target`;
   *  - AllStore(cell, index, aggregate): the closure `all` attaches to its element
   *    `index`, sharing the counter and result array `cell`;
   *  - FinallyRecord(cell, rejected, onfinally): the first closure of `finally`,
   *    which records the outcome in `cell` and calls `onfinally`;
   *  - FinallyReplay(cell, result): the second closure of `finally`, which settles
   *    `result` with the recorded outcome.
   */
  datatype Callback =
    | User(f: Value -> Outcome)
    | SettleWith(target: nat, state: Terminal)
    | AllStore(cell: nat, index: nat, aggregate: nat)
    | FinallyRecord(cell: nat, rejected: bool, onfinally: Option<() -> Outcome>)
    | FinallyReplay(cell: nat, result: nat)

  /**
   * One half of the handler record `then` attaches: it settles `child` from the
   * parent's outcome, through `callback` when one was given.
   */
  datatype Reaction =
    | OnFulfilled(child: nat, callback: Option<Callback>)
    | OnRejected(child: nat, callback: Option<Callback>)

  /** The state a reaction without a callback passes its argument on as. */
  function PassThrough(reaction: Reaction): Terminal
  {
    if reaction.OnFulfilled? then Resolved else Rejected
  }

  /** A handler record of the queue. */
  datatype Handler = Handler(onfulfilled: Option<Reaction>, onrejected: Option<Reaction>)

  /** The fields of one SyncPromise. */
  datatype PromiseRec = PromiseRec(state: State, value: Value, handlers: seq<Handler>)

  /** The variables `counter` and `resolvedCollection` one call of `all` shares among its closures. */
  datatype AllCell = AllCell(counter: int, results: seq<Value>)

  /** The variables `val` and `isRejected` one call of `finally` shares among its closures. */
  datatype FinallyCell = FinallyCell(val: Value, isRejected: bool)

  /** Every promise and every shared closure variable in existence. */
  datatype World = World(promises: seq<PromiseRec>, allCells: seq<AllCell>, finallyCells: seq<FinallyCell>)

  /**
   * What a caller's executor does with the capabilities it is given: the calls it
   * makes to `resolve` (state Resolved) and `reject` (state Rejected), in order,
   * and the value it throws afterwards, if any.
   */
  datatype Settle = Settle(state: Terminal, value: Value)
  datatype Executor = Executor(calls: seq<Settle>, throws: Option<Value>)

  /** A newly constructed promise, before its executor runs. */
  const Fresh := PromiseRec(Pending, Undefined, [])

  /** The reason `all` rejects with when its input is not an array. */
  const AllTypeError := TypeError("Promise.all requires an array as input.")

  /** Whether a value has a callable `then` member. */
  predicate IsThenable(v: Value)
  {
    v.Thenable?
  }

  /** `n` holes of a sparse array, each reading as undefined. */
  function Blank(n: nat): (s: seq<Value>)
    ensures |s| == n && forall i :: 0 <= i < n ==> s[i] == Undefined
  {
    seq(n, _ => Undefined)
  }

  /** The store with promise `p` replaced by `rec`. */
  function Put(w: World, p: nat, rec: PromiseRec): World
    requires p < |w.promises|
  {
    w.(promises := w.promises[p := rec])
  }

  /** The store with one more, fresh, promise at the end; its id is the old size. */
  function Push(w: World): World
  {
    w.(promises := w.promises + [Fresh])
  }

  /**
   * `r` is a later store than `w`: nothing is deallocated, and a promise that was
   * settled in `w` has the same state and value in `r` (first settlement wins).
   */
  ghost predicate Advances(w: World, r: World)
  {
    && |w.promises| <= |r.promises|
    && |w.allCells| <= |r.allCells|
    && |w.finallyCells| <= |r.finallyCells|
    && forall q :: 0 <= q < |w.promises| && w.promises[q].state != Pending ==>
         r.promises[q].state == w.promises[q].state && r.promises[q].value == w.promises[q].value
  }

  lemma AdvancesTransitive(w: World, w1: World, w2: World)
    requires Advances(w, w1) && Advances(w1, w2)
    ensures Advances(w, w2)
  {
  }

  /** Promise `q`, if it exists and is settled, holds a value that is not a thenable. */
  ghost predicate PlainAt(ps: seq<PromiseRec>, q: int)
  {
    0 <= q < |ps| && ps[q].state != Pending ==> !IsThenable(ps[q].value)
  }

  /** Settled promises never hold a thenable: settling with one adopts it instead. */
  ghost predicate Coherent(w: World)
  {
    forall q :: PlainAt(w.promises, q)
  }

  /** Replacing a promise by a record that is pending or holds a plain value keeps the store coherent. */
  lemma CoherentPut(w: World, p: nat, rec: PromiseRec)
    requires p < |w.promises| && (rec.state != Pending ==> !IsThenable(rec.value))
    ensures Coherent(w) ==> Coherent(Put(w, p, rec))
  {
    if Coherent(w) {
      forall q
        ensures PlainAt(Put(w, p, rec).promises, q)
      {
        assert PlainAt(w.promises, q);
      }
    }
  }

  /** A fresh promise keeps the store coherent. */
  lemma CoherentPush(w: World)
    ensures Coherent(w) ==> Coherent(Push(w))
  {
    if Coherent(w) {
      forall q
        ensures PlainAt(Push(w).promises, q)
      {
        assert PlainAt(w.promises, q);
      }
    }
  }

  /** Replacing the queue of a promise keeps the store coherent. */
  lemma CoherentRequeue(w: World, p: nat, hs: seq<Handler>)
    requires p < |w.promises|
    ensures Coherent(w) ==> Coherent(Put(w, p, w.promises[p].(handlers := hs)))
  {
    if Coherent(w) {
      assert PlainAt(w.promises, p);
      CoherentPut(w, p, w.promises[p].(handlers := hs));
    }
  }
}
