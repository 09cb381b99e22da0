# SyncPromise, modelled in Dafny

This project models `SyncPromise`, the synchronous promise of the Sentry
JavaScript SDK (`docs/sentry/src/syncPromise.js`). It is a thenable with the
`Promise` interface, but it runs everything at once on the caller's stack:
- the executor runs inside the constructor;
- `_setResult` latches the first settlement;
- settling with a thenable subscribes to it instead of storing it (adoption);
- `_attachHandler`/`_executeHandlers` fire queued handlers as soon as the
  promise is settled and then empty the queue;
- `then`, `catch`, `finally` and the static `resolve`, `reject` and `all` are
  built on those primitives.

The model is organised as follows.

- `Values`: the data model.
  - A promise is a `PromiseRec` with the source's `_state`, `_value` and
    `_handlers`.
  - All promises live in one store (`World.promises`), indexed by a promise id.
    A `Thenable(id)` value refers to a promise in the store.
  - The closures of the source become data:
    - `Reaction` is one half of a `then` handler, together with the child it
      settles.
    - `Callback` is one of the following: a caller's function; a promise's own
      `_resolve`/`_reject` (`SettleWith`); the per-element closure of `all`
      (`AllStore`); or one of the two closures of `finally`.
  - The variables those closures share live in `World.allCells` (the `counter`
    and `resolvedCollection` of `all`) and `World.finallyCells` (the `val` and
    `isRejected` of `finally`).
- `Semantics`: one pure function per operation of the source, over the whole
  store.
- `Heap`: the class `PromiseHeap`, which holds the store in fields and updates
  it in place as the source does. Handlers are drained by a loop, the
  executor's calls by a loop, and the elements of `all` by a loop. Each method
  is proved to leave exactly the store the matching `Semantics` function
  gives.
- `Steps`, `SettlementLaws`, `ChainingLaws`, `AggregationLaws` and
  `CoherenceLaws` hold what is proved about those functions.

Some members are only steps of other proofs and have no row below, because they
state nothing about the program on their own:
- `Values.AdvancesTransitive` and `AggregationLaws.HoldsAlong`: general facts about
  stores that only move forward.
- `AggregationLaws.AttachItemBy` and `AggregationLaws.AttachItemsSnoc`: they unfold
  the definitions of `AttachItem` and `AttachItems`.
- `AggregationLaws.FireAppend`: sequence arithmetic.
- `AggregationLaws.FulfilsAfterPush`: allocating the aggregate changes nothing about the elements.
- `Values.Blank`, `AggregationLaws.Stages`, `AggregationLaws.Fulfilments`: notation.
- The constructor of `Heap.PromiseHeap`: it creates the empty store, which the
  source has no counterpart for.

The model follows the code where it differs from the behaviour a reader of
the API might expect:
- a `finally` callback that throws leaves the returned promise pending. Only
  the replay step (lines 190-197) settles that promise, and a throw skips the
  replay step;
- static `reject` of a thenable adopts that thenable, as `resolve` does;
- `then` and `finally` always install both halves of a handler, so the
  `if (handler.onrejected)` and `if (handler.onfulfilled)` guards are always
  true. The model still keeps the halves optional and skips absent ones.

Recursion depth is bounded by a `fuel` parameter. Only `_setResult` uses it up,
and every re-entrant cycle in the source goes through `_setResult`. With fuel
0, a settlement does nothing.

## Model

| member | source | states |
|---|---|---|
| Values.CoherentPut | docs/sentry/src/syncPromise.js:44-50 | storing a record keeps the rule "no settled promise holds a thenable", provided the stored record keeps it |
| Values.CoherentPush | docs/sentry/src/syncPromise.js:29-30 | allocating a new pending promise keeps the rule "no settled promise holds a thenable" |
| Values.CoherentRequeue | docs/sentry/src/syncPromise.js:55 | replacing a promise's handler queue keeps the rule "no settled promise holds a thenable" |
| Semantics.SetResult | docs/sentry/src/syncPromise.js:40-51 | a settlement allocates promises but never removes any, and never changes the state or value of a promise that is already settled |
| Semantics.Then | docs/sentry/src/syncPromise.js:131-167 | `then` returns a brand-new promise id, and settled promises keep their outcome (a thenable id beyond the store getting no handler is SettlementLaws.AdoptForeign) |
| Semantics.AttachHandler | docs/sentry/src/syncPromise.js:54-57 | attaching a handler never changes the outcome of a settled promise |
| Semantics.ExecuteHandlers | docs/sentry/src/syncPromise.js:59-79 | draining a queue never changes the outcome of a settled promise |
| Semantics.RunHandlers | docs/sentry/src/syncPromise.js:63-77 | running the handlers of a queue never changes the outcome of a settled promise |
| Semantics.RunReaction | docs/sentry/src/syncPromise.js:135-164 | running one half of a `then` handler never changes the outcome of a settled promise |
| Semantics.Invoke | docs/sentry/src/syncPromise.js:118-126 | calling a callback, including the `all` and `finally` closures, never changes the outcome of a settled promise |
| Semantics.RunCalls | docs/sentry/src/syncPromise.js:80-81 | the executor's `resolve`/`reject` calls never change the outcome of a settled promise |
| Semantics.Construct | docs/sentry/src/syncPromise.js:27-86 | the constructor returns a brand-new promise id, and settled promises keep their outcome |
| Semantics.Finally | docs/sentry/src/syncPromise.js:173-199 | `finally` returns a brand-new promise id, and settled promises keep their outcome |
| Semantics.AttachItem | docs/sentry/src/syncPromise.js:116-127 | wiring one element of `all` never changes the outcome of a settled promise |
| Semantics.AttachItems | docs/sentry/src/syncPromise.js:116-127 | wiring all elements of `all` never changes the outcome of a settled promise |
| Semantics.All | docs/sentry/src/syncPromise.js:104-129 | `all` returns a brand-new promise id, and settled promises keep their outcome |
| Heap.PromiseHeap.SetResult | docs/sentry/src/syncPromise.js:40-51 | updates the store in place and leaves exactly the store `Semantics.SetResult` gives: latch, adoption, or plain settlement followed by a drain |
| Heap.PromiseHeap.Then | docs/sentry/src/syncPromise.js:131-167 | allocates the child and attaches its handler in place; returns the child id and leaves the store `Semantics.Then` gives |
| Heap.PromiseHeap.AttachHandler | docs/sentry/src/syncPromise.js:54-57 | appends the handler to the queue in place, then drains it; the resulting store is exactly the one `Semantics.AttachHandler` gives |
| Heap.PromiseHeap.ExecuteHandlers | docs/sentry/src/syncPromise.js:59-79 | a loop that fires the queued handlers in order, the loop invariant being that the store so far equals the drain of the handlers run so far, and then empties the queue |
| Heap.PromiseHeap.RunReaction | docs/sentry/src/syncPromise.js:135-164 | leaves exactly the store `Semantics.RunReaction` gives: with no callback the outcome passes through; otherwise the child is resolved with the callback's return value, or rejected with what the callback threw |
| Heap.PromiseHeap.Invoke | docs/sentry/src/syncPromise.js:118-126 | runs a callback in place (a caller's function, `_resolve`/`_reject`, the countdown of `all`, or a `finally` closure); returns the outcome `Semantics.Invoke` gives and leaves the store it gives |
| Heap.PromiseHeap.Construct | docs/sentry/src/syncPromise.js:27-86 | allocates a pending promise and runs the executor's calls in a loop, then rejects with what the executor threw, if anything; the id and store are exactly those `Semantics.Construct` gives |
| Heap.PromiseHeap.StaticResolve | docs/sentry/src/syncPromise.js:92-96 | a new promise resolved with the value, or adopting it; the id and store are exactly those `Semantics.Resolve` gives |
| Heap.PromiseHeap.StaticReject | docs/sentry/src/syncPromise.js:98-102 | a new promise rejected with the reason, or adopting it; the id and store are exactly those `Semantics.Reject` gives |
| Heap.PromiseHeap.Catch | docs/sentry/src/syncPromise.js:169-171 | `then` with the identity as the fulfilment callback; the id and store are exactly those `Semantics.Catch` gives |
| Heap.PromiseHeap.Finally | docs/sentry/src/syncPromise.js:173-199 | builds the result promise, the shared cell and the two chained `then`s in place; the id and store are exactly those `Semantics.Finally` gives |
| Heap.PromiseHeap.All | docs/sentry/src/syncPromise.js:104-129 | checks the input type and handles the empty array, then wires each element in a loop; the loop invariant is that the store equals the wiring of the elements seen so far |
| Steps.SettleQuiet | docs/sentry/src/syncPromise.js:48-50 | settling a pending promise that has no handlers stores exactly the outcome, and nothing else changes |
| Steps.ConstructSettled | docs/sentry/src/syncPromise.js:80-81 | an executor that makes one plain call yields a new promise that is already settled, and the rest of the store is unchanged |
| Steps.ThenOnPending | docs/sentry/src/syncPromise.js:60-134 | `then` on a pending promise only allocates the child and queues one handler |
| Steps.ThenOnSettled | docs/sentry/src/syncPromise.js:55-134 | `then` on a settled promise with an empty queue runs the matching half at once, and the parent ends as it was |
| Steps.SettleRunsOne | docs/sentry/src/syncPromise.js:48-78 | settling a promise with one queued handler runs the matching half of that handler and then empties the queue |
| SettlementLaws.SettledIgnoresCalls | docs/sentry/src/syncPromise.js:41-43 | once a promise is settled, any further `resolve`/`reject` calls leave the whole store unchanged |
| SettlementLaws.RunCallsAppend | docs/sentry/src/syncPromise.js:81 | the executor's calls take effect one after the other, in order |
| SettlementLaws.FirstSettlementWins | docs/sentry/src/syncPromise.js:41-85 | the executor's first plain settlement decides the promise, whatever calls or throw come after it |
| SettlementLaws.ThrowingExecutorRejects | docs/sentry/src/syncPromise.js:83-85 | an executor that throws before any call rejects the promise with the thrown value; the store is exactly determined |
| SettlementLaws.ThrowAfterPendingCallsRejects | docs/sentry/src/syncPromise.js:80-86 | an executor that throws after calls that left its promise pending rejects the promise with the thrown value, whatever else those calls did |
| SettlementLaws.PlainSettlement | docs/sentry/src/syncPromise.js:48-50 | a pending promise settled with a non-thenable takes the requested state and value, whatever its handlers do, and its queue ends empty |
| SettlementLaws.AdoptPending | docs/sentry/src/syncPromise.js:44-47 | settling with a pending thenable (by resolve or by reject) leaves the promise pending and queues its `_resolve`/`_reject` on the thenable; the only other change to the store is the pending child that the internal `then` allocates |
| SettlementLaws.AdoptForeign | docs/sentry/src/syncPromise.js:44-47 | settling with a thenable that is not a promise of the store leaves the promise pending and queues nothing; the only change to the store is the child that the internal `then` allocates |
| SettlementLaws.AdoptSettled | docs/sentry/src/syncPromise.js:44-47 | settling a promise with no handlers with a settled thenable gives the promise that thenable's state and value, whether it was resolved or rejected; the store is exactly determined |
| SettlementLaws.AdoptSettledOutcome | docs/sentry/src/syncPromise.js:44-47 | settling with a settled thenable gives the promise that thenable's state and value, whatever handlers were queued on the promise |
| SettlementLaws.ConstructAdopts | docs/sentry/src/syncPromise.js:92-102 | static `resolve(q)` or `reject(q)` of a settled `q` yields a promise with `q`'s outcome; the only other change to the store is the resolved child of the internal `then` |
| SettlementLaws.RejectAdoptsThenable | docs/sentry/src/syncPromise.js:98-102 | `reject(q)` of a resolved `q` adopts it: the new promise ends resolved with `q`'s value, not rejected with `q` as its reason |
| SettlementLaws.NestedResolveFlattens | docs/sentry/src/syncPromise.js:92-96 | `resolve(resolve(v))` settles exactly as `resolve(v)` does: nested promises flatten |
| SettlementLaws.DirectSettleBeatsAdoption | docs/sentry/src/syncPromise.js:41-47 | a promise still waiting on a pending thenable can be settled directly; that settlement wins, and the thenable settling later changes nothing |
| SettlementLaws.DrainCallsSelectedInOrder | docs/sentry/src/syncPromise.js:63-77 | a drain calls, in insertion order, the `onrejected` half of each handler when rejected and the `onfulfilled` half when resolved, and skips halves that are absent |
| SettlementLaws.RunInOrderSnoc | docs/sentry/src/syncPromise.js:64-71 | running one more reaction after a list is the same as running the extended list |
| SettlementLaws.DrainAppend | docs/sentry/src/syncPromise.js:55-71 | handlers queued earlier run before handlers queued later |
| SettlementLaws.DrainEmptiesQueue | docs/sentry/src/syncPromise.js:59-79 | draining a pending promise does nothing; draining a settled one keeps its state and value and leaves its queue empty |
| SettlementLaws.AttachToPending | docs/sentry/src/syncPromise.js:54-62 | attaching to a pending promise grows its queue by exactly that handler and changes nothing else |
| SettlementLaws.AttachToSettled | docs/sentry/src/syncPromise.js:54-78 | attaching to a settled promise fires the whole queue at once, the new handler last, and leaves the queue empty |
| ChainingLaws.ReactionSettlesChild | docs/sentry/src/syncPromise.js:135-164 | the half that fires settles its fresh child: with no callback it passes the outcome through; otherwise it resolves the child with the callback's return value, or rejects it with what the callback threw; nothing else in the store changes |
| ChainingLaws.ReactionSettlesPendingChild | docs/sentry/src/syncPromise.js:135-164 | the same settlement for a pending child with any queue: the child ends with the passed-through outcome, the callback's return value, or its throw |
| ChainingLaws.ThenOnSettledParent | docs/sentry/src/syncPromise.js:131-167 | `then` on a settled parent settles the child at once from the chosen callback, and leaves the parent as it was |
| ChainingLaws.ThenOnPendingParent | docs/sentry/src/syncPromise.js:48-167 | `then` on a pending parent leaves the child pending with exactly one handler queued; when the parent settles later, the child settles from the chosen callback |
| ChainingLaws.ThenAdoptsReturnedThenable | docs/sentry/src/syncPromise.js:44-143 | an `onfulfilled` that returns a settled thenable makes the child take that thenable's outcome |
| ChainingLaws.RejectionAdoptsReturnedThenable | docs/sentry/src/syncPromise.js:44-164 | an `onrejected` that returns a settled thenable makes the child take that thenable's outcome |
| ChainingLaws.CatchOnSettledParent | docs/sentry/src/syncPromise.js:169-171 | `catch` passes a fulfilment through unchanged and hands a rejection to its callback |
| ChainingLaws.FinallyFirstStage | docs/sentry/src/syncPromise.js:178-189 | the first `then` of `finally` records the parent's value and whether it rejected, then resolves its child with undefined, or rejects it with what `onfinally` threw; the result promise is untouched |
| ChainingLaws.FinallySecondStage | docs/sentry/src/syncPromise.js:190-197 | once the first stage resolves, the result is settled from the recorded value and flag; if the first stage rejected, the result is untouched |
| ChainingLaws.FinallyReplaysOutcome | docs/sentry/src/syncPromise.js:173-199 | `finally` on a settled parent, with a callback that returns (or no callback), ends with the parent's own state and value, and drops the callback's return value |
| ChainingLaws.FinallyThrowLeavesPending | docs/sentry/src/syncPromise.js:184-197 | on a parent already settled, when the `finally` callback throws, the returned promise is still pending when `finally` returns |
| ChainingLaws.FinallyThrowOnPendingParent | docs/sentry/src/syncPromise.js:173-199 | on a parent still pending, when the `finally` callback throws, the returned promise is pending when `finally` returns, and it is still pending after the parent settles; the throw only rejects the internal children |
| AggregationLaws.AllRejectsNonArray | docs/sentry/src/syncPromise.js:106-109 | a collection that is not an array rejects the aggregate with the TypeError |
| AggregationLaws.AllOfEmpty | docs/sentry/src/syncPromise.js:110-113 | an empty array resolves the aggregate with an empty array |
| AggregationLaws.StorePrefix | docs/sentry/src/syncPromise.js:114-123 | after k distinct elements fulfil, in any order: the counter is n-k, every fulfilled element's value sits at its own index, and every other slot is undefined |
| AggregationLaws.StoreInAnyOrder | docs/sentry/src/syncPromise.js:114-124 | whatever order the elements fulfil in, the counter reaches 0 only at the last one, and the collection is then exactly the elements' values, in position order |
| AggregationLaws.ThenPassesThrough | docs/sentry/src/syncPromise.js:126-141 | `then` without the matching callback on a settled parent gives a child with the parent's outcome |
| AggregationLaws.AllStoreFires | docs/sentry/src/syncPromise.js:118-125 | the per-element closure stores the value at its index and counts down; it resolves an aggregate with no handlers with the collection exactly when the counter reaches 0; the store is exactly determined |
| AggregationLaws.AllStoreSettlesAggregate | docs/sentry/src/syncPromise.js:118-125 | with any handlers queued on the aggregate, the closure resolves it with the collection when the counter reaches 0, and otherwise only updates the cell |
| AggregationLaws.AllStoreThen | docs/sentry/src/syncPromise.js:117-125 | wiring the per-element closure to a fulfilled element runs it at once, and its child resolves with undefined |
| AggregationLaws.RejectWire | docs/sentry/src/syncPromise.js:126 | `.then(null, reject)` on a rejected child rejects the aggregate with the same reason; the only other change is a resolved grandchild |
| AggregationLaws.ItemPlain | docs/sentry/src/syncPromise.js:116-126 | wiring a plain element stores it at its index and counts down; the aggregate resolves exactly when the counter reaches 0; the store is exactly determined |
| AggregationLaws.ItemResolved | docs/sentry/src/syncPromise.js:116-126 | wiring an element that is an already resolved promise adopts it, then stores its value at the element's index and counts down; the aggregate resolves exactly when the counter reaches 0; the store is exactly determined |
| AggregationLaws.ItemRejected | docs/sentry/src/syncPromise.js:44-126 | wiring an element that is a rejected promise rejects the aggregate with its reason and leaves the shared cell unchanged |
| AggregationLaws.WiredPrefixStep | docs/sentry/src/syncPromise.js:116-126 | storing one more element's value extends the invariant of the `forEach`, which is a countdown over the prefix |
| AggregationLaws.AllPrefix | docs/sentry/src/syncPromise.js:114-127 | after the first k elements are wired, each a plain value or an already resolved promise: the counter is n-k, the first k slots hold their values, and the aggregate is still pending unless k = n, in which case it is resolved with all the values |
| AggregationLaws.AttachItemsStep | docs/sentry/src/syncPromise.js:116 | wiring one more element never changes the outcome of a settled promise |
| AggregationLaws.StagesAdvance | docs/sentry/src/syncPromise.js:116 | each stage of the `forEach` keeps the outcomes settled at the stage before it |
| AggregationLaws.AllResolvesInOrder | docs/sentry/src/syncPromise.js:104-129 | `all` of elements that are plain values or already resolved promises resolves with each element's value, at the element's own position |
| AggregationLaws.AllOfPlainValues | docs/sentry/src/syncPromise.js:104-129 | `all` of plain values resolves with exactly those values, in order |
| AggregationLaws.AllOfResolvedPromises | docs/sentry/src/syncPromise.js:92-129 | `all([resolve(x), resolve(y), z])` resolves with `[x, y, z]` |
| AggregationLaws.RejectionAfterPrefix | docs/sentry/src/syncPromise.js:116-126 | a rejected promise wired after elements that fulfil at once rejects the aggregate with its reason |
| AggregationLaws.AllFirstRejectionWins | docs/sentry/src/syncPromise.js:104-129 | when element k is a rejected promise and the elements before it are plain values or resolved promises, the aggregate is rejected with that promise's reason, whatever follows |
| CoherenceLaws.SetResultCoherent | docs/sentry/src/syncPromise.js:44-50 | `_setResult` never leaves a thenable as the value of a settled promise |
| CoherenceLaws.ThenCoherent | docs/sentry/src/syncPromise.js:131-167 | `then` keeps the rule "no settled promise holds a thenable" |
| CoherenceLaws.AttachHandlerCoherent | docs/sentry/src/syncPromise.js:54-57 | attaching a handler keeps the rule "no settled promise holds a thenable" |
| CoherenceLaws.ExecuteHandlersCoherent | docs/sentry/src/syncPromise.js:59-79 | draining keeps the rule "no settled promise holds a thenable" |
| CoherenceLaws.RunHandlersCoherent | docs/sentry/src/syncPromise.js:63-77 | running handlers keeps the rule "no settled promise holds a thenable" |
| CoherenceLaws.RunReactionCoherent | docs/sentry/src/syncPromise.js:135-164 | one half of a `then` handler keeps the rule "no settled promise holds a thenable" |
| CoherenceLaws.InvokeCoherent | docs/sentry/src/syncPromise.js:118-126 | callbacks keep the rule "no settled promise holds a thenable", even when `all` resolves with its collection |
| CoherenceLaws.RunCallsCoherent | docs/sentry/src/syncPromise.js:80-81 | executor calls keep the rule "no settled promise holds a thenable" |
| CoherenceLaws.ConstructCoherent | docs/sentry/src/syncPromise.js:27-102 | constructing a promise, and so the static `resolve`/`reject`, keeps the rule "no settled promise holds a thenable" |
| CoherenceLaws.FinallyCoherent | docs/sentry/src/syncPromise.js:173-199 | `finally` keeps the rule "no settled promise holds a thenable" |
| CoherenceLaws.AttachItemsCoherent | docs/sentry/src/syncPromise.js:116-127 | wiring the elements of `all` keeps the rule "no settled promise holds a thenable" |
| CoherenceLaws.AllCoherent | docs/sentry/src/syncPromise.js:104-129 | `all` keeps the rule "no settled promise holds a thenable" |

## Left out

- `toString` (lines 88-90) is not modelled: it returns a constant string and touches no state.
- `isThenable` is duck typing in the source: any object whose `then` is a function counts. The model has one kind of thenable, a `Thenable(id)` that refers to a SyncPromise in the store. While an id is beyond the store it stands for a foreign thenable that never calls back: `then` on it attaches nothing (SettlementLaws.AdoptForeign). Ids are not reserved, though. A value holding an id that is allocated later refers from then on to the promise allocated with that id.
- Callers' callbacks are pure functions from a value to a return or a throw. A callback that re-enters the promises (calls `then` or `resolve` on them) is not modelled.
- An executor is a script: the list of `resolve`/`reject` calls it makes, then at most one throw. An executor that keeps `resolve` and calls it later is modelled by calling `Heap.PromiseHeap.SetResult` directly.
- The JavaScript call stack is unbounded in the model only up to `fuel`. A settlement with no fuel left does nothing. In the source, unbounded recursion comes from re-entering a drain. For example, take `p.then(() => p)` on a settled `p`. The callback's result makes the child adopt `p`, so a handler is attached to `p` while `p` is still draining. Line 55 appends it before line 78 empties the queue, so the nested drain runs the first handler again, and so on until the stack overflows. In the model that recursion stops when the fuel runs out. A cycle of promises that only adopt each other just subscribes, and stays pending in the source as in the model.
- Input arrays of `all` are dense: `Arr(items)` is a sequence with no holes. A sparse array such as `[ , 1]` or `new Array(3)` is not modelled. In the source, `counter` starts at `collection.length` (line 114), which counts the holes, but `forEach` (line 116) skips them, so such an aggregate never resolves.
- `resolvedCollection` is one JavaScript array. `all` resolves with that array itself, so elements that settle later still write into it. The model resolves with a snapshot, `Arr(results)`. Since the aggregate resolves only at the last write, the difference cannot be seen through the promise.
- Errors are values (`TypeError(message)`); the message of the `all` TypeError is kept, but stack traces are not.
- ChainingLaws.ThenOnSettledParent: proved only for a parent with an empty queue, and for a callback whose result is not a thenable (adoption of a returned thenable is the separate lemma ThenAdoptsReturnedThenable).
- ChainingLaws.ThenOnPendingParent: proved only when the parent's queue is empty before `then`, so that the new handler is the only one, and for a parent value and a callback result that are not thenables.
- ChainingLaws.FinallyReplaysOutcome: proved only for a parent that is already settled with a non-thenable value.
- ChainingLaws.FinallyThrowLeavesPending: proved only for a parent already settled with an empty queue and for a thrown value that is not a thenable; it states the result is pending when `finally` returns, and says nothing about later operations on other promises.
- ChainingLaws.FinallyThrowOnPendingParent: proved only for a parent that is pending with an empty queue and settles once afterwards with a value that is not a thenable, for a thrown value that is not a thenable, and given fuel for three nested settlements; it says nothing about later operations on other promises.
- ChainingLaws.FinallyFirstStage: proved only for a parent already settled with an empty queue, and for a thrown value that is not a thenable.
- SettlementLaws.AdoptSettled: the exact store is stated only for a promise with no handlers and a thenable with no handlers; SettlementLaws.AdoptSettledOutcome states the promise's state and value for a promise with any queue.
- ChainingLaws.ReactionSettlesChild: the exact store is stated only for a fresh child; ChainingLaws.ReactionSettlesPendingChild states the child's state and value for a pending child with any queue. Both need the value the child is settled with (passed through, returned or thrown) not to be a thenable; a returned thenable is adopted, as ThenAdoptsReturnedThenable and RejectionAdoptsReturnedThenable state.
- ChainingLaws.ReactionSettlesPendingChild: proved only for a value to settle with (passed through, returned or thrown) that is not a thenable.
- ChainingLaws.ThenAdoptsReturnedThenable: proved only for a parent already resolved with an empty queue and a thenable already settled with an empty queue; ChainingLaws.RejectionAdoptsReturnedThenable is the same law for the `onrejected` half. A returned thenable that is still pending is covered by SettlementLaws.AdoptPending.
- ChainingLaws.RejectionAdoptsReturnedThenable: proved only for a parent already rejected with an empty queue, and a returned thenable already settled with an empty queue and a value that is not a thenable.
- AggregationLaws.AllStoreFires: the exact store is stated only for an aggregate with no handlers; AggregationLaws.AllStoreSettlesAggregate states the aggregate's state and value for one with any queue, but not the cell after that settlement, since the aggregate's handlers may run further `all` closures.
- AggregationLaws.AllResolvesInOrder: the end-to-end lemmas about `all` cover elements that fulfil at once, which means plain values, or promises already resolved with a plain value and with no handlers queued. Elements that fulfil later and out of order are covered one level down, at the shared cell, by StoreInAnyOrder and AllStoreSettlesAggregate.
- AggregationLaws.AllFirstRejectionWins: requires the rejected element to have an empty handler queue, and the elements before it to fulfil at once.
