/**
 * Small facts about single steps of the semantics, used to follow a cascade of
 * settlements one step at a time.
 */
module Steps {
  import opened Values
  import opened Semantics

  /** Settling a pending promise that has no handlers with a plain value just stores the outcome. */
  lemma SettleQuiet(w: World, p: nat, st: Terminal, v: Value, fuel: nat)
    requires p < |w.promises| && w.promises[p].state == Pending && w.promises[p].handlers == []
    requires !IsThenable(v) && fuel >= 1
    ensures SetResult(w, p, st, v, fuel) == Put(w, p, PromiseRec(st, v, []))
  {
    var w1 := Put(w, p, PromiseRec(st, v, []));
    assert w.promises[p].(state := st, value := v) == PromiseRec(st, v, []);
    assert RunHandlers(w1, [], st, v, fuel - 1) == w1;
    assert w1.promises[p := w1.promises[p].(handlers := [])] == w1.promises;
  }

  /** A promise whose executor makes one plain `resolve`/`reject` call is born settled. */
  lemma ConstructSettled(w: World, st: Terminal, v: Value, fuel: nat)
    requires !IsThenable(v) && fuel >= 1
    ensures Construct(w, Executor([Settle(st, v)], None), fuel)
         == (Push(w).(promises := w.promises + [PromiseRec(st, v, [])]), |w.promises|)
  {
    var p := |w.promises|;
    var calls := [Settle(st, v)];
    assert calls[..0] == [];
    assert RunCalls(Push(w), p, calls, fuel) == SetResult(Push(w), p, st, v, fuel);
    SettleQuiet(Push(w), p, st, v, fuel);
    assert Push(w).promises[p := PromiseRec(st, v, [])] == w.promises + [PromiseRec(st, v, [])];
  }

  /** `then` on a pending promise only allocates the child and queues one handler. */
  lemma ThenOnPending(w: World, p: nat, onF: Option<Callback>, onR: Option<Callback>, fuel: nat)
    requires p < |w.promises| && w.promises[p].state == Pending
    ensures Then(w, p, onF, onR, fuel).0
         == Put(Push(w), p, w.promises[p].(handlers := w.promises[p].handlers + [ThenHandler(|w.promises|, onF, onR)]))
  {
    var h := ThenHandler(|w.promises|, onF, onR);
    assert Push(w).promises[p] == w.promises[p];
    var w1 := Put(Push(w), p, w.promises[p].(handlers := w.promises[p].handlers + [h]));
    assert AttachHandler(Push(w), p, h, fuel) == ExecuteHandlers(w1, p, fuel) == w1;
  }

  /**
   * `then` on a settled promise with an empty queue runs the matching half of the
   * new handler at once; the parent ends as it was.
   */
  lemma ThenOnSettled(w: World, p: nat, onF: Option<Callback>, onR: Option<Callback>, fuel: nat)
    requires p < |w.promises| && w.promises[p].state != Pending && w.promises[p].handlers == []
    ensures var rec := w.promises[p];
            var h := ThenHandler(|w.promises|, onF, onR);
            var w1 := Put(Push(w), p, rec.(handlers := [h]));
            Then(w, p, onF, onR, fuel).0 == Put(RunReaction(w1, Selected(h, rec.state).value, rec.value, fuel), p, rec)
  {
    var rec := w.promises[p];
    var h := ThenHandler(|w.promises|, onF, onR);
    assert Push(w).promises[p] == rec;
    assert rec.handlers + [h] == [h];
    var w1 := Put(Push(w), p, rec.(handlers := [h]));
    assert AttachHandler(Push(w), p, h, fuel) == ExecuteHandlers(w1, p, fuel);
    assert [h][..0] == [];
    var w2 := RunReaction(w1, Selected(h, rec.state).value, rec.value, fuel);
    assert RunHandlers(w1, [h], rec.state, rec.value, fuel) == w2;
    assert w2.promises[p].(handlers := []) == rec;
  }

  /** Settling a pending promise with one queued handler runs the matching half of it, then empties the queue. */
  lemma SettleRunsOne(w: World, p: nat, h: Handler, st: Terminal, v: Value, fuel: nat)
    requires p < |w.promises| && w.promises[p].state == Pending && w.promises[p].handlers == [h]
    requires !IsThenable(v) && Selected(h, st).Some? && fuel >= 1
    ensures var w1 := RunReaction(Put(w, p, PromiseRec(st, v, [h])), Selected(h, st).value, v, fuel - 1);
            SetResult(w, p, st, v, fuel) == Put(w1, p, w1.promises[p].(handlers := []))
  {
    var w0 := Put(w, p, PromiseRec(st, v, [h]));
    assert [h][..0] == [];
    assert RunHandlers(w0, [h], st, v, fuel - 1) == RunReaction(w0, Selected(h, st).value, v, fuel - 1);
  }
}
