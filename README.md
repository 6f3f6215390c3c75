# Promises/A+ promise and binary heap, modelled in Dafny

This project models two small JavaScript programs and proves properties of
the models.

**The promise** (`promises-aplus/promise.js`) is a Promises/A+ deferred
value. It has four parts:

- `_Promise` objects with the fields `status`, `value`, `reason` and `callbacks`;
- the methods `resolve`, `reject` and `then`;
- microtasks scheduled with `queueMicrotask`;
- the Promise Resolution Procedure `resolvePromise`.

The pieces of the model:

- `Promises` (promise.dfy) describes the system as a state machine over a
  `World` with three parts:
  - the records of every promise object, indexed by identity;
  - the FIFO microtask queue;
  - the `hasCalled` latches of the thenable branch. These outlive the call of
    `resolvePromise`, because a foreign `then` may keep its callbacks and call
    them later.
- JavaScript values are classified into a closed `Value` type: primitives,
  plain objects, error objects, own promises, foreign thenables and objects
  whose `then` getter throws.
- A foreign thenable's `then` body is a finite script of actions: call the
  resolve callback, call the reject callback, throw, or return and carry on in
  a later task.
- Handlers passed to `then` are drawn from a closed set of behaviours.
- `depth` is the stack the host has left. When a nested `resolvePromise` has
  none left, it throws a `RangeError`, as a JavaScript stack overflow does.
  The recursion really can be unbounded: fulfilling a promise with itself
  through `resolve` is enough. Adopting such a promise throws the
  `RangeError` whatever stack is left (`PromiseProperties.SelfFulfilledOverflows`),
  so `p.resolve(p); p.then()` rejects the promise `then` returns
  (`AplusAdapter.SelfFulfilledThenOverflows`).
- `PromiseRuntime.Runtime` (runtime.dfy) is the imperative form. Its fields
  hold the same state, and its methods update them in place as the
  JavaScript does. Each method is proved to produce exactly the state that the
  matching `Promises` function gives.
- `PromiseProperties` (promise_properties.dfy) proves what the implementation
  promises for all well-formed worlds. `Promises.WellFormed` is the invariant
  that every operation keeps, starting from the empty world.
- `AplusAdapter` (adapter.dfy) models the three factories of
  `promises-aplus/test.js`, with concrete scenarios built from them.

**The heap** (`heap/heap.js`) is an array-backed binary min-heap. `BinaryHeap.Heap`
keeps the array as a `seq<int>` field. The constructor, `SiftDown` and `SiftUp` are loops over that field: the
constructor heapifies bottom-up by calling `SiftDown`. `Push` and `Pop`
call `SiftUp` and `SiftDown`. The loops of `SiftDown` and `SiftUp` are
proved against step lemmas. `Push` and `Pop`
are proved to keep heap order and to add or remove exactly one element, and
`Pop` returns the minimum.

Where the code and the Promises/A+ design disagree, the model follows the code:

- `resolve(value)` fulfils directly and never runs the resolution procedure.
  So `outer.resolve(inner)` fulfils `outer` with the promise object `inner`
  itself. `p.resolve(p)` fulfils `p` with itself and raises no `TypeError`.
  A `then` on `outer` still follows `inner`, because its continuation passes
  the value through `resolvePromise`. See `AplusAdapter.ResolveWithPromiseDoesNotAdopt`,
  `AplusAdapter.ThenOnOuterFollowsInner`, `AplusAdapter.InnerResolveQueuesSubscription`
  and `AplusAdapter.InnerResolveFulfilsThen`.
- `callbacks` is never emptied after settlement. Even so, each callback
  registered with `then` is queued exactly once:
  - while its promise is pending it is not in the queue
    (`PromiseProperties.PendingCallbackUnqueued`);
  - `resolve` and `reject` queue the callbacks only on the transition out of
    `pending` (`PromiseProperties.ResolveFulfils`, `PromiseProperties.SettleOnce`);
  - after that transition each callback occurs in the queue exactly once
    (`PromiseProperties.ResolveQueuesOnce`, `PromiseProperties.RejectQueuesOnce`);
  - no later microtask queues it again: the number of its occurrences in the
    queue never grows (`PromiseProperties.RunNeverRequeues`).

  The proof relies on three invariants that are part of `Promises.WellFormed`.
  Every task in a promise's `callbacks` is a continuation of that promise.
  The callbacks of one promise have distinct targets, because each `then`
  creates a new promise. No callback of a pending promise is in the queue.
  It also relies on what one microtask queues: only a callback of a promise
  that was still pending, a foreign-`then` continuation, or a continuation
  whose target is a newly created promise.
- A promise never holds both a value and a reason. While pending it holds
  neither; `resolve` sets only `value` and `reject` sets only `reason`
  (`PromiseProperties.ValueAndReasonExclusive`).

## Model

| member | source | states |
|---|---|---|
| `Promises.Classify` | promises-aplus/promise.js:49-70 | each branch of `resolvePromise` is taken exactly when its test holds: self-reference iff `x` is the promise itself, own promise iff `x` is another `_Promise`, getter-throws iff reading `then` throws, thenable iff `then` is a function, and the payload is carried over |
| `Promises.ResolvePromise` | promises-aplus/promise.js:48-96 | resolving never produces a dangling reference and never removes a promise or latch; the only exception it lets escape is stack exhaustion, every other failure becomes a rejection |
| `Promises.CallForeignThen` | promises-aplus/promise.js:70-89 | calling a foreign `then` never throws: the `catch` absorbs whatever the foreign code throws |
| `Promises.RunThenScript` | promises-aplus/promise.js:73-85 | running the foreign `then` body keeps the world well-formed, and whatever it throws refers only to existing promises |
| `Promises.ApplyHandler` | promises-aplus/promise.js:32-36 | calling a handler keeps the world well-formed and its result or exception refers only to existing promises |
| `Promises.Step` | promises-aplus/promise.js:32-40 | running one microtask keeps the world well-formed and never removes a promise or latch |
| `Promises.ProcessResultOf` | promises-aplus/promise.js:32-40 | running a continuation, with the handler chosen by the source's status, keeps the world well-formed and never removes a promise or latch |
| `Promises.SettleTarget` | promises-aplus/promise.js:33-39 | settling the promise `then` returned from the handler's outcome keeps the world well-formed and never removes a promise or latch |
| `Promises.Run` | promises-aplus/promise.js:41-43 | running queued microtasks in order keeps the world well-formed |
| `Promises.NewPromise` | promises-aplus/promise.js:2-8 | `new _Promise(executor)` appends one pending record with no callbacks and returns its id; the older records, the queue and the latches are unchanged |
| `Promises.Resolve` | promises-aplus/promise.js:10-15 | afterwards the promise is settled, and a pending one is fulfilled with exactly the value given; no promise is added, the latches are unchanged and the queue only grows at its end (the full effect is `PromiseProperties.ResolveFulfils` and `PromiseProperties.SettleOnce`) |
| `Promises.Reject` | promises-aplus/promise.js:17-22 | the same for `reject`: a pending promise is rejected with exactly the reason given (full effect in `PromiseProperties.RejectRejects`) |
| `Promises.Then` | promises-aplus/promise.js:24-45 | returns the id of a new pending promise with no callbacks; the latches are unchanged and the queue only grows at its end (whether it registers or queues is `PromiseProperties.ThenRegistersOrQueues`) |
| `Promises.OrIdentity` | promises-aplus/promise.js:25-27 | a function argument is kept, a missing one becomes the identity; its contract states that choice, and `PromiseProperties.DefaultHandlers` states what the default then does |
| `Promises.OrRethrow` | promises-aplus/promise.js:28-30 | a function argument is kept, a missing one becomes rethrow; `PromiseProperties.DefaultHandlers` states what the default then does |
| `Promises.NewPromiseWellFormed` | promises-aplus/promise.js:2-8 | creating a promise keeps the world well-formed: every reference valid, value and reason exclusive, every registered callback a continuation of its promise |
| `Promises.ResolveWellFormed` | promises-aplus/promise.js:10-15 | `resolve` with a valid value keeps the world well-formed; it sets only the value |
| `Promises.RejectWellFormed` | promises-aplus/promise.js:17-22 | `reject` with a valid reason keeps the world well-formed; it sets only the reason |
| `Promises.ThenWellFormed` | promises-aplus/promise.js:24-45 | `then` with valid handlers keeps the world well-formed; the continuation it registers with a pending receiver is a continuation of that receiver |
| `Promises.AddLatchWellFormed` | promises-aplus/promise.js:71-71 | a fresh `hasCalled` latch keeps every reference valid |
| `PromiseProperties.SettleOnce` | promises-aplus/promise.js:11-18 | once settled, a promise ignores every later `resolve` and `reject`: the world is unchanged |
| `PromiseProperties.ResolveFulfils` | promises-aplus/promise.js:10-15 | `resolve` on a pending promise fulfils it with exactly the value given and appends its registered callbacks, in registration order, to what was queued already; no other promise changes |
| `PromiseProperties.RejectRejects` | promises-aplus/promise.js:17-22 | the same for `reject`, which records the reason |
| `PromiseProperties.PendingCallbackUnqueued` | promises-aplus/promise.js:10-43 | a callback registered with a pending promise is not in the queue: only `resolve` and `reject` (lines 14 and 21) queue callbacks, and they do so on leaving `pending` |
| `PromiseProperties.ResolveQueuesOnce` | promises-aplus/promise.js:10-15 | `resolve` on a pending promise leaves each of its registered callbacks in the queue exactly once |
| `PromiseProperties.RejectQueuesOnce` | promises-aplus/promise.js:17-22 | the same for `reject` |
| `PromiseProperties.ResolveEvolves` | promises-aplus/promise.js:10-15 | `resolve` only moves the world forward: settled promises stay as they are, callbacks are only appended, tripped latches stay tripped, and the queue keeps its contents and gains no callback of an already settled promise |
| `PromiseProperties.RejectEvolves` | promises-aplus/promise.js:17-22 | `reject` only moves the world forward in the same sense |
| `PromiseProperties.ThenEvolves` | promises-aplus/promise.js:24-45 | `then` only moves the world forward in the same sense |
| `PromiseProperties.ResolvePromiseEvolves` | promises-aplus/promise.js:48-96 | the whole resolution procedure, through every recursive and foreign path, only moves the world forward in the same sense |
| `PromiseProperties.ResolvePromiseOwnEvolves` | promises-aplus/promise.js:51-61 | the own-promise branch only moves the world forward in the same sense |
| `PromiseProperties.AdoptSettledOrPendingEvolves` | promises-aplus/promise.js:54-61 | adopting a rejected or pending own promise only moves the world forward in the same sense |
| `PromiseProperties.CallForeignThenEvolves` | promises-aplus/promise.js:70-89 | the thenable branch, including its `catch`, only moves the world forward in the same sense |
| `PromiseProperties.RunThenScriptEvolves` | promises-aplus/promise.js:73-85 | any run of the foreign `then` body only moves the world forward in the same sense |
| `PromiseProperties.ApplyHandlerEvolves` | promises-aplus/promise.js:32-36 | calling any handler only moves the world forward in the same sense |
| `PromiseProperties.ProcessResultEvolves` | promises-aplus/promise.js:32-40 | running a continuation only moves the world forward in the same sense |
| `PromiseProperties.SettleTargetEvolves` | promises-aplus/promise.js:33-39 | settling the promise `then` returned only moves the world forward in the same sense |
| `PromiseProperties.StepEvolves` | promises-aplus/promise.js:32-40 | running a microtask only moves the world forward; it removes only the head of the queue (first in, first out), and everything it appends is either a foreign-`then` continuation or a continuation of a promise that was pending or of one whose target is new |
| `PromiseProperties.StepNeverRequeues` | promises-aplus/promise.js:10-43 | running a microtask never adds an occurrence of a settled promise's callback to the queue, and that promise stays as it was |
| `PromiseProperties.RunNeverRequeues` | promises-aplus/promise.js:10-43 | over any number of microtasks, the occurrences in the queue of a settled promise's callback never grow: it is never queued again |
| `PromiseProperties.ValueAndReasonExclusive` | promises-aplus/promise.js:2-22 | after any number of microtasks, a pending promise holds neither value nor reason, a fulfilled one no reason, a rejected one no value |
| `PromiseProperties.RunEvolves` | promises-aplus/promise.js:41-43 | any number of microtasks keeps settled promises as they are, only appends to callbacks, only grows the store and the latches, and keeps tripped latches tripped |
| `PromiseProperties.ThenRegistersOrQueues` | promises-aplus/promise.js:24-45 | `then` returns a new pending promise and runs no handler; a pending receiver gets the continuation appended to its callbacks, a settled one has it queued; no status, value or reason changes |
| `PromiseProperties.DefaultHandlers` | promises-aplus/promise.js:25-30 | a missing or non-function `onFulfilled` passes the value through, a missing `onRejected` rethrows the reason |
| `PromiseProperties.RejectionPassesThrough` | promises-aplus/promise.js:28-40 | with the default `onRejected`, the promise `then` returned is rejected with the source's reason |
| `PromiseProperties.PlainValuePassesThrough` | promises-aplus/promise.js:25-40 | with the default `onFulfilled` and a plain value, the promise `then` returned is fulfilled with the source's value |
| `PromiseProperties.HandlerThrowRejects` | promises-aplus/promise.js:32-40 | a handler that throws `e` rejects the promise `then` returned with `e` |
| `PromiseProperties.SelfResolutionRejects` | promises-aplus/promise.js:49-50 | resolving a promise with itself rejects it with a `TypeError` |
| `PromiseProperties.PlainValueFulfils` | promises-aplus/promise.js:90-95 | a non-thenable value fulfils the promise with that very value |
| `PromiseProperties.AdoptFulfilled` | promises-aplus/promise.js:52-53 | adopting a fulfilled own promise continues the procedure with its value |
| `PromiseProperties.SelfFulfilledOverflows` | promises-aplus/promise.js:48-53 | adopting another promise that is fulfilled with itself recurses until the stack runs out, whatever depth is left: the procedure throws the `RangeError` and changes nothing |
| `PromiseProperties.SelfFulfilledContinuationOverflows` | promises-aplus/promise.js:32-53 | the default continuation `then` queued on a promise fulfilled with itself rejects the promise `then` returned with the `RangeError` |
| `PromiseProperties.AdoptRejected` | promises-aplus/promise.js:54-55 | adopting a rejected own promise rejects with its reason |
| `PromiseProperties.AdoptPending` | promises-aplus/promise.js:56-61 | adopting a pending own promise subscribes to it with `then` and leaves the adopting promise untouched |
| `PromiseProperties.AdoptionFollowsFulfilment` | promises-aplus/promise.js:57-58 | when the adopted promise is fulfilled with `v`, the adopting promise ends where resolving it with `v` leaves it |
| `PromiseProperties.AdoptionFollowsRejection` | promises-aplus/promise.js:59-59 | when the adopted promise is rejected with `e`, the adopting promise is rejected with `e` |
| `PromiseProperties.ThrowingGetterRejects` | promises-aplus/promise.js:63-69 | a throwing `then` getter rejects the promise with what it threw |
| `PromiseProperties.LatchedScriptInert` | promises-aplus/promise.js:75-84 | once the latch is tripped, the rest of the foreign script changes no promise and no latch, whatever it calls |
| `PromiseProperties.LatchedForeignTaskInert` | promises-aplus/promise.js:75-84 | a later call of either callback, after the latch is tripped, changes no promise |
| `PromiseProperties.FirstResolveCallWins` | promises-aplus/promise.js:75-88 | a thenable that first calls its resolve callback with `v` ends exactly as resolving with `v` does, whatever it does afterwards, throwing included |
| `PromiseProperties.FirstRejectCallWins` | promises-aplus/promise.js:80-88 | a thenable that first calls its reject callback with `e` rejects the promise with `e`, whatever it does afterwards |
| `PromiseProperties.ThrowBeforeCallRejects` | promises-aplus/promise.js:86-89 | a `then` that throws before calling either callback rejects the promise with what it threw |
| `PromiseRuntime.Runtime.constructor` | promises-aplus/promise.js:2-8 | a runtime starts with no promises, no microtasks and no latches |
| `PromiseRuntime.Runtime.NewPromise` | promises-aplus/promise.js:2-8 | appends a pending record with the constructor's field values and returns its id |
| `PromiseRuntime.Runtime.EnqueueAll` | promises-aplus/promise.js:14-14 | `callbacks.forEach(queueMicrotask)` appends every callback to the queue in order and changes nothing else |
| `PromiseRuntime.Runtime.Resolve` | promises-aplus/promise.js:10-15 | updates the fields in place to exactly the state `Promises.Resolve` describes |
| `PromiseRuntime.Runtime.Reject` | promises-aplus/promise.js:17-22 | updates the fields in place to exactly the state `Promises.Reject` describes |
| `PromiseRuntime.Runtime.Then` | promises-aplus/promise.js:24-45 | updates the fields in place and returns exactly what `Promises.Then` describes |
| `PromiseRuntime.Runtime.ResolvePromise` | promises-aplus/promise.js:48-96 | the recursive resolution procedure on the mutable state gives exactly the state and outcome of `Promises.ResolvePromise` |
| `PromiseRuntime.Runtime.CallForeignThen` | promises-aplus/promise.js:70-89 | the thenable branch on the mutable state matches `Promises.CallForeignThen` |
| `PromiseRuntime.Runtime.RunThenScript` | promises-aplus/promise.js:73-85 | a loop over the foreign script matches the recursive `Promises.RunThenScript` |
| `PromiseRuntime.Runtime.ApplyHandler` | promises-aplus/promise.js:32-36 | calling a handler on the mutable state matches `Promises.ApplyHandler` |
| `PromiseRuntime.Runtime.ProcessResultOf` | promises-aplus/promise.js:32-40 | running a continuation on the mutable state matches `Promises.ProcessResultOf` |
| `PromiseRuntime.Runtime.SettleTarget` | promises-aplus/promise.js:33-39 | the `try` body after the handler and its `catch`, on the mutable state, match `Promises.SettleTarget` |
| `PromiseRuntime.Runtime.Step` | promises-aplus/promise.js:32-40 | running a microtask on the mutable state matches `Promises.Step` |
| `PromiseRuntime.Runtime.Run` | promises-aplus/promise.js:41-43 | a loop draining up to `n` microtasks matches `Promises.Run` |
| `AplusAdapter.ResolvedPromise` | promises-aplus/test.js:5-9 | `resolved(v)` gives a new promise fulfilled with `v`, leaving every older promise, the queue and the latches as they were |
| `AplusAdapter.RejectedPromise` | promises-aplus/test.js:10-14 | `rejected(r)` gives a new promise rejected with `r`, leaving the rest as it was |
| `AplusAdapter.DeferredPromise` | promises-aplus/test.js:15-21 | `deferred()` gives a new pending promise with no callbacks, leaving the rest as it was |
| `AplusAdapter.ThenOnResolvedIsAsynchronous` | promises-aplus/promise.js:41-43 | `resolved(5).then()` is still pending when `then` returns, and is fulfilled with 5 once its microtask runs |
| `AplusAdapter.ThenOnRejectedPassesReason` | promises-aplus/promise.js:28-30 | `rejected(r).then()` is rejected with `r` once its microtask runs |
| `AplusAdapter.DeferredQueuesOnResolve` | promises-aplus/promise.js:41-43 | `then` on a pending deferred registers one callback and queues nothing; `resolve(3)` queues it; running it fulfils the new promise with 3 |
| `AplusAdapter.ResolveWithPromiseDoesNotAdopt` | promises-aplus/promise.js:10-15 | `outer.resolve(inner)` with `inner` pending fulfils `outer` with the promise object itself; `outer.then()` then queues its continuation |
| `AplusAdapter.ThenOnOuterFollowsInner` | promises-aplus/promise.js:32-61 | running that continuation passes `inner` to `resolvePromise`, which subscribes the new promise to `inner` with `then`; the new promise stays pending |
| `AplusAdapter.InnerResolveQueuesSubscription` | promises-aplus/promise.js:10-15 | `inner.resolve(7)` fulfils `inner` with 7 and queues that subscription |
| `AplusAdapter.InnerResolveFulfilsThen` | promises-aplus/promise.js:57-58 | once the subscription runs, the promise `outer.then()` returned is fulfilled with 7 |
| `AplusAdapter.ResolveWithItself` | promises-aplus/promise.js:10-15 | `p.resolve(p)` fulfils `p` with itself, and `p.then()` then queues its continuation |
| `AplusAdapter.SelfFulfilledThenOverflows` | promises-aplus/promise.js:32-53 | running that continuation rejects the promise `then` returned with the `RangeError`, whatever stack is left |
| `AplusAdapter.HandlerReturningOwnPromiseRejects` | promises-aplus/promise.js:49-50 | a handler returning the very promise `then` returned makes that promise rejected with a `TypeError` |
| `BinaryHeap.Parent` | heap/heap.js:32-32 | the parent index is below the child and the child is its left or right child |
| `BinaryHeap.AncestorIsSmaller` | heap/heap.js:51-54 | in a heap every element is at least each of its ancestors |
| `BinaryHeap.RootIsAncestor` | heap/heap.js:51-54 | slot 0 is an ancestor of every slot |
| `BinaryHeap.RootIsMinimum` | heap/heap.js:51-54 | the root of a non-empty heap is its minimum, which `pop` returns |
| `BinaryHeap.LastToRoot` | heap/heap.js:51-53 | moving the last element over the root removes exactly the old root and keeps every edge below the root ordered |
| `BinaryHeap.OrderedAboveAll` | heap/heap.js:5-7 | once every sift-down from the last index to 0 is done, the array is a heap |
| `BinaryHeap.Swap` | heap/heap.js:21-21 | the destructuring swap exchanges exactly two slots and keeps the elements as a multiset |
| `BinaryHeap.SiftingDownStarts` | heap/heap.js:10-13 | the sift-down invariant holds on entry when every edge whose parent index is above `i` is ordered, anywhere in the array |
| `BinaryHeap.SiftingDownStep` | heap/heap.js:13-22 | swapping with the smaller child moves the only defect one level down |
| `BinaryHeap.SiftingDownDone` | heap/heap.js:23-25 | when the slot is no larger than its children, every edge from the start slot down is ordered |
| `BinaryHeap.SiftingUpStep` | heap/heap.js:32-35 | swapping with a larger parent moves the only defect one level up |
| `BinaryHeap.SiftingUpDone` | heap/heap.js:36-38 | when the slot is no smaller than its parent, or is the root, the array is a heap |
| `BinaryHeap.PopAsWritten` | heap/heap.js:47-56 | `pop` as written returns slot 0, or `undefined` on an empty array; the array loses one slot, except when it was empty, and then it holds one slot |
| `BinaryHeap.PopAsWrittenNonEmpty` | heap/heap.js:47-56 | on a non-empty array, `pop` as written returns slot 0 and moves the last element to the front |
| `BinaryHeap.PopAsWrittenOnEmpty` | heap/heap.js:47-56 | on an empty array, `pop` as written returns `undefined` and leaves one `undefined` slot behind |
| `BinaryHeap.Heap.Empty` | heap/heap.js:58-60 | `empty()` holds exactly when the heap has no elements |
| `BinaryHeap.Heap.constructor` | heap/heap.js:2-8 | the heap holds exactly the given elements, in heap order |
| `BinaryHeap.Heap.SiftDown` | heap/heap.js:10-27 | keeps the elements; if every edge whose parent index is above `i` was ordered, anywhere in the array, then afterwards every edge whose parent index is `i` or above is ordered |
| `BinaryHeap.Heap.SiftUp` | heap/heap.js:29-40 | keeps the elements; if every edge except the one from `i` to its parent was ordered, and the parent of `i` was no larger than the children of `i`, the array is a heap afterwards |
| `BinaryHeap.Heap.Push` | heap/heap.js:42-45 | keeps heap order and adds exactly the pushed element |
| `BinaryHeap.Heap.Pop` | heap/heap.js:47-56 | keeps heap order; on a non-empty heap it returns the minimum and removes exactly that one element; on an empty heap it returns nothing and the heap stays empty |

## Left out

- The executor is not modelled as a function. `new _Promise(executor)` is `NewPromise`, and whoever holds the id then plays the executor by calling `Resolve` or `Reject`. An executor that throws is not modelled; the source does not catch that either.
- JavaScript's dynamic typing is replaced by the closed `Value` type. The model distinguishes what `resolvePromise` distinguishes. A `then` getter that reads differently on a second access is irrelevant, because the code reads it once.
- Object identity is modelled only for `_Promise` objects. Two `new TypeError()` objects are equal in the model.
- Handlers passed to `then` come from a closed set: return a value, throw a value, pass through, or the two adoption callbacks. Arbitrary user code inside a handler is not modelled.
- Foreign `then` bodies are finite scripts of calls, throws and deferrals. Foreign code that never terminates is not modelled.
- The host's event loop is modelled as one FIFO list of this program's microtasks. Interleaving with other host tasks and timers is not modelled.
- Stack exhaustion is the explicit `depth` parameter, not the host's real stack size.
- An exception thrown by the deferred part of a foreign script has no catcher in the source. The model drops it; the host would report it as uncaught.
- The call to the compliance suite in `promises-aplus/test.js` (lines 1-4 and 22-24) and its `console.log` error reporting are external I/O and are not modelled.
- `BinaryHeap.Heap`: the comparator parameter is fixed to its default `(a, b) => a - b` on integers, written as `<`. A custom comparator, floating-point values and `NaN` comparisons are not modelled.
- `BinaryHeap.Heap.constructor`: the model copies the caller's array. The source keeps a reference to it (`this.heap = arr`) and reorders it in place, and that aliasing is not captured.
- `BinaryHeap.Heap.Pop`: the method models the corrected behaviour on an empty heap (see Findings). The behaviour as written is `BinaryHeap.PopAsWritten`.

## Findings

| source | as written | input that shows it | evidently intended | confidence | as-written member | corrected member |
|---|---|---|---|---|---|---|
| heap/heap.js:47-56 | On an empty heap `pop()` takes the `else` branch. `this.heap.pop()` gives `undefined`, and `this.heap[0] = undefined` makes the array length 1 again. | `new Heap([])`, then `pop()`, then `empty()`: `pop` gives `undefined`, and `empty()` is then false | popping an empty heap gives `undefined` and leaves it empty | not executed; follows from JavaScript array semantics | `BinaryHeap.PopAsWrittenOnEmpty` | `BinaryHeap.Heap.Pop` |
