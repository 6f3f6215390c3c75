/**
 * What promises-aplus/promise.js promises, stated over the functions of
 * module `Promises` and proved for all well-formed worlds.
 */
module PromiseProperties {

  import opened Options
  import opened Promises

  // ---------------------------------------------------------------------
  // Settlement (lines 10-22)
  // ---------------------------------------------------------------------

  /** Once settled, a promise ignores every later `resolve` and `reject`. */
  lemma SettleOnce(w: World, id: nat, v: Value)
    requires id < |w.store| && w.store[id].status != Pending
    ensures Resolve(w, id, v) == w
    ensures Reject(w, id, v) == w
  {
  }

  /**
   * `resolve` on a pending promise fulfils it with exactly the given value,
   * keeps its reason, and appends its registered callbacks to the queue in
   * registration order; nothing else changes.
   */
  lemma ResolveFulfils(w: World, id: nat, v: Value)
    requires id < |w.store| && w.store[id].status == Pending
    ensures var w' := Resolve(w, id, v);
      && |w'.store| == |w.store| && w'.latches == w.latches
      && w'.store[id].status == Fulfilled && w'.store[id].value == v
      && w'.store[id].reason == w.store[id].reason
      && w'.queue == w.queue + w.store[id].callbacks
      && (forall i :: 0 <= i < |w.store| && i != id ==> w'.store[i] == w.store[i])
  {
  }

  /** The same for `reject`, which records the reason. */
  lemma RejectRejects(w: World, id: nat, e: Value)
    requires id < |w.store| && w.store[id].status == Pending
    ensures var w' := Reject(w, id, e);
      && |w'.store| == |w.store| && w'.latches == w.latches
      && w'.store[id].status == Rejected && w'.store[id].reason == e
      && w'.store[id].value == w.store[id].value
      && w'.queue == w.queue + w.store[id].callbacks
      && (forall i :: 0 <= i < |w.store| && i != id ==> w'.store[i] == w.store[i])
  {
  }

  /** A callback of a pending promise is not in the queue yet. */
  lemma PendingCallbackUnqueued(w: World, id: nat, k: nat)
    requires WellFormed(w) && id < |w.store| && w.store[id].status == Pending
    requires k < |w.store[id].callbacks|
    ensures multiset(w.queue)[w.store[id].callbacks[k]] == 0
  {
  }

  /** Callbacks with pairwise different targets occur once each. */
  lemma OccursOnce(cbs: seq<Task>, k: nat)
    requires DistinctTargets(cbs) && k < |cbs|
    ensures multiset(cbs)[cbs[k]] == 1
  {
    var t := cbs[k];
    assert cbs == cbs[..k] + [t] + cbs[k + 1..];
    assert t !in cbs[..k] && t !in cbs[k + 1..];
  }

  /**
   * Settling a pending promise queues each of its callbacks exactly once:
   * none was queued before, and it occurs once among the callbacks.
   */
  lemma ResolveQueuesOnce(w: World, id: nat, v: Value, k: nat)
    requires WellFormed(w) && id < |w.store| && w.store[id].status == Pending
    requires k < |w.store[id].callbacks|
    ensures multiset(Resolve(w, id, v).queue)[w.store[id].callbacks[k]] == 1
  {
    PendingCallbackUnqueued(w, id, k);
    OccursOnce(w.store[id].callbacks, k);
  }

  /** The same for `reject`. */
  lemma RejectQueuesOnce(w: World, id: nat, e: Value, k: nat)
    requires WellFormed(w) && id < |w.store| && w.store[id].status == Pending
    requires k < |w.store[id].callbacks|
    ensures multiset(Reject(w, id, e).queue)[w.store[id].callbacks[k]] == 1
  {
    PendingCallbackUnqueued(w, id, k);
    OccursOnce(w.store[id].callbacks, k);
  }

  // ---------------------------------------------------------------------
  // Monotonic evolution: the store and the latches only grow, a settled
  // promise never changes again, registered callbacks are only ever
  // appended, and a tripped latch stays tripped.  Within one microtask the
  // queue only grows at its end, and what is appended is never a callback
  // of a promise that was already settled.
  // ---------------------------------------------------------------------

  ghost predicate Evolves(w: World, w': World)
  {
    && |w.store| <= |w'.store|
    && |w.latches| <= |w'.latches|
    && (forall i :: 0 <= i < |w.store| && w.store[i].status != Pending ==> w'.store[i] == w.store[i])
    && (forall i :: 0 <= i < |w.store| ==> w.store[i].callbacks <= w'.store[i].callbacks)
    && (forall l :: 0 <= l < |w.latches| && w.latches[l] ==> w'.latches[l])
  }

  lemma EvolvesTransitive(a: World, b: World, c: World)
    requires Evolves(a, b) && Evolves(b, c)
    ensures Evolves(a, c)
  {
    forall i | 0 <= i < |a.store|
      ensures a.store[i].callbacks <= c.store[i].callbacks
    {
      assert a.store[i].callbacks <= b.store[i].callbacks;
    }
  }

  /**
   * A task that cannot be among the callbacks of a promise settled in
   * `store`: a foreign-`then` continuation, a continuation of a promise
   * that is new or still pending, or one whose target is a new promise.
   */
  ghost predicate FreshTask(store: seq<PromiseState>, t: Task)
  {
    match t
    case ForeignCalls(_, _, _) => true
    case ProcessResult(src, tgt, _, _) => src >= |store| || store[src].status == Pending || tgt >= |store|
  }

  /** The queue of `w'` is that of `w` followed by fresh tasks only. */
  ghost predicate Extends(w: World, w': World)
  {
    && w.queue <= w'.queue
    && forall k :: |w.queue| <= k < |w'.queue| ==> FreshTask(w.store, w'.queue[k])
  }

  ghost predicate Advances(w: World, w': World)
  {
    Evolves(w, w') && Extends(w, w')
  }

  lemma AdvancesTransitive(a: World, b: World, c: World)
    requires Advances(a, b) && Advances(b, c)
    ensures Advances(a, c)
  {
    EvolvesTransitive(a, b, c);
    forall k | |a.queue| <= k < |c.queue|
      ensures FreshTask(a.store, c.queue[k])
    {
      if k < |b.queue| {
        assert c.queue[k] == b.queue[k];
      } else {
        assert FreshTask(b.store, c.queue[k]);
      }
    }
  }

  /** `t` was registered with promise `i`, which is settled. */
  ghost predicate SettledCallback(w: World, i: nat, t: Task)
  {
    i < |w.store| && w.store[i].status != Pending && t in w.store[i].callbacks
  }

  /** A callback of a settled promise is never fresh. */
  lemma SettledCallbackNotFresh(w: World, i: nat, t: Task)
    requires WellFormed(w) && SettledCallback(w, i, t)
    ensures !FreshTask(w.store, t)
  {
    var k :| 0 <= k < |w.store[i].callbacks| && w.store[i].callbacks[k] == t;
    assert OwnedBy(w.store[i].callbacks, i);
    assert TaskOk(w.store[i].callbacks[k], |w.store|, |w.latches|);
  }

  lemma ResolveEvolves(w: World, id: nat, v: Value)
    requires WellFormed(w) && id < |w.store|
    ensures Advances(w, Resolve(w, id, v))
  {
  }

  lemma RejectEvolves(w: World, id: nat, e: Value)
    requires WellFormed(w) && id < |w.store|
    ensures Advances(w, Reject(w, id, e))
  {
  }

  lemma ThenEvolves(w: World, id: nat, onF: Option<Handler>, onR: Option<Handler>)
    requires WellFormed(w) && id < |w.store|
    ensures Advances(w, Then(w, id, onF, onR).0)
  {
  }

  lemma {:induction false} ResolvePromiseEvolves(w: World, p: nat, x: Value, depth: nat)
    requires WellFormed(w) && p < |w.store| && ValueOk(x, |w.store|)
    ensures Advances(w, ResolvePromise(w, p, x, depth).0)
    decreases depth, 0, 1
  {
    if depth > 0 {
      var r := ResolvePromise(w, p, x, depth).0;
      match Classify(p, x)
      case SelfReference =>
        assert r == Reject(w, p, Error(TypeError));
        RejectEvolves(w, p, Error(TypeError));
      case OwnPromise(q) =>
        ResolvePromiseOwnEvolves(w, p, q, depth);
      case ThenGetterThrows(e) =>
        assert r == Reject(w, p, e);
        RejectEvolves(w, p, e);
      case ForeignThenable(s) =>
        assert r == CallForeignThen(w, p, s, depth - 1).0;
        CallForeignThenEvolves(w, p, s, depth - 1);
      case PlainValue =>
        assert r == Resolve(w, p, x);
        ResolveEvolves(w, p, x);
    }
  }

  /** The own-promise branch of `ResolvePromiseEvolves`. */
  lemma {:induction false} ResolvePromiseOwnEvolves(w: World, p: nat, q: nat, depth: nat)
    requires WellFormed(w) && p < |w.store| && q < |w.store| && q != p && depth > 0
    ensures Advances(w, ResolvePromise(w, p, Own(q), depth).0)
    decreases depth, 0, 0
  {
    if w.store[q].status == Fulfilled {
      AdoptFulfilled(w, p, q, depth);
      ResolvePromiseEvolves(w, p, w.store[q].value, depth - 1);
    } else {
      AdoptSettledOrPendingEvolves(w, p, q, depth);
    }
  }

  /** The non-recursive cases of `ResolvePromiseOwnEvolves`. */
  lemma AdoptSettledOrPendingEvolves(w: World, p: nat, q: nat, depth: nat)
    requires WellFormed(w) && p < |w.store| && q < |w.store| && q != p && depth > 0
    requires w.store[q].status != Fulfilled
    ensures Advances(w, ResolvePromise(w, p, Own(q), depth).0)
  {
    if w.store[q].status == Rejected {
      AdoptRejected(w, p, q, depth);
      RejectEvolves(w, p, w.store[q].reason);
    } else {
      AdoptPending(w, p, q, depth);
      ThenEvolves(w, q, Some(ResolveInto(p)), Some(RejectInto(p)));
    }
  }

  lemma {:induction false} CallForeignThenEvolves(w: World, p: nat, s: seq<Action>, depth: nat)
    requires WellFormed(w) && p < |w.store| && ScriptOk(s, |w.store|)
    ensures Advances(w, CallForeignThen(w, p, s, depth).0)
    decreases depth, 2, 0
  {
    var l := |w.latches|;
    var w1 := AddLatch(w);
    AddLatchWellFormed(w);
    RunThenScriptEvolves(w1, p, l, s, depth);
    var (w2, o) := RunThenScript(w1, p, l, s, depth);
    AdvancesTransitive(w, w1, w2);
    if o.Threw? && !w2.latches[l] {
      RejectEvolves(w2, p, o.e);
      AdvancesTransitive(w, w2, Reject(w2, p, o.e));
    }
  }

  lemma {:induction false} RunThenScriptEvolves(w: World, p: nat, l: nat, s: seq<Action>, depth: nat)
    requires WellFormed(w) && p < |w.store| && l < |w.latches| && ScriptOk(s, |w.store|)
    ensures Advances(w, RunThenScript(w, p, l, s, depth).0)
    decreases depth, 1, |s|
  {
    if s != [] {
      assert ScriptOk(s[1..], |w.store|);
      match s[0]
      case CallResolve(v) =>
        if w.latches[l] {
          RunThenScriptEvolves(w, p, l, s[1..], depth);
        } else {
          var wt := Trip(w, l);
          ResolvePromiseEvolves(wt, p, v, depth);
          var (w1, o) := ResolvePromise(wt, p, v, depth);
          AdvancesTransitive(w, wt, w1);
          if !o.Threw? {
            ScriptOkGrows(s[1..], |w.store|, |w1.store|);
            RunThenScriptEvolves(w1, p, l, s[1..], depth);
            AdvancesTransitive(w, w1, RunThenScript(w1, p, l, s[1..], depth).0);
          }
        }
      case CallReject(e) =>
        if w.latches[l] {
          RunThenScriptEvolves(w, p, l, s[1..], depth);
        } else {
          var wt := Trip(w, l);
          var w1 := Reject(wt, p, e);
          RejectEvolves(wt, p, e);
          AdvancesTransitive(w, wt, w1);
          RejectWellFormed(wt, p, e);
          RunThenScriptEvolves(w1, p, l, s[1..], depth);
          AdvancesTransitive(w, w1, RunThenScript(w1, p, l, s[1..], depth).0);
        }
      case Throw(e) =>
      case Yield =>
    }
  }

  lemma ApplyHandlerEvolves(w: World, h: Handler, arg: Value, depth: nat)
    requires WellFormed(w) && HandlerOk(h, |w.store|) && ValueOk(arg, |w.store|)
    ensures Advances(w, ApplyHandler(w, h, arg, depth).0)
  {
    match h
    case ResolveInto(t) => ResolvePromiseEvolves(w, t, arg, depth);
    case RejectInto(t) => RejectEvolves(w, t, arg);
    case _ =>
  }

  lemma ProcessResultEvolves(w: World, src: nat, tgt: nat, f: Handler, g: Handler, depth: nat)
    requires WellFormed(w) && src < |w.store| && tgt < |w.store| && HandlerOk(f, |w.store|) && HandlerOk(g, |w.store|)
    ensures Advances(w, ProcessResultOf(w, src, tgt, f, g, depth))
  {
    var rec := w.store[src];
    var h := if rec.status == Fulfilled then f else g;
    var arg := if rec.status == Fulfilled then rec.value else rec.reason;
    ApplyHandlerEvolves(w, h, arg, depth);
    var (w1, o) := ApplyHandler(w, h, arg, depth);
    SettleTargetEvolves(w1, tgt, o, depth);
    AdvancesTransitive(w, w1, SettleTarget(w1, tgt, o, depth));
  }

  lemma SettleTargetEvolves(w: World, tgt: nat, o: Outcome, depth: nat)
    requires WellFormed(w) && tgt < |w.store| && OutcomeOk(o, |w.store|)
    ensures Advances(w, SettleTarget(w, tgt, o, depth))
  {
    if o.Threw? {
      RejectEvolves(w, tgt, o.e);
    } else {
      ResolvePromiseEvolves(w, tgt, o.v, depth);
      var (w2, o2) := ResolvePromise(w, tgt, o.v, depth);
      if o2.Threw? {
        RejectEvolves(w2, tgt, o2.e);
        AdvancesTransitive(w, w2, Reject(w2, tgt, o2.e));
      }
    }
  }

  /**
   * Running a task: the store evolves monotonically, and the queue is the
   * old queue without its head, followed by whatever the task enqueued
   * (first in, first out), none of it a callback of a promise that was
   * settled before the task ran.
   */
  lemma StepEvolves(w: World, depth: nat)
    requires WellFormed(w)
    ensures Evolves(w, Step(w, depth))
    ensures w.queue != [] ==> Extends(w.(queue := w.queue[1..]), Step(w, depth))
  {
    if w.queue != [] {
      var w0 := w.(queue := w.queue[1..]);
      assert WellFormed(w0);
      match w.queue[0]
      case ProcessResult(src, tgt, f, g) =>
        ProcessResultEvolves(w0, src, tgt, f, g, depth);
      case ForeignCalls(t, l, s) =>
        RunThenScriptEvolves(w0, t, l, s, depth);
    }
  }

  lemma {:induction false} RunEvolves(w: World, n: nat, depth: nat)
    requires WellFormed(w)
    ensures Evolves(w, Run(w, n, depth))
    decreases n
  {
    if n > 0 && w.queue != [] {
      StepEvolves(w, depth);
      RunEvolves(Step(w, depth), n - 1, depth);
      EvolvesTransitive(w, Step(w, depth), Run(Step(w, depth), n - 1, depth));
    }
  }

  /**
   * A callback of a settled promise is never queued again: running a task
   * does not add an occurrence of it to the queue.  With
   * `PendingCallbackUnqueued`, `ResolveQueuesOnce` and `RejectQueuesOnce`,
   * each handler registered with `then` on a pending promise is queued once.
   */
  lemma StepNeverRequeues(w: World, depth: nat, i: nat, t: Task)
    requires WellFormed(w) && SettledCallback(w, i, t)
    ensures SettledCallback(Step(w, depth), i, t)
    ensures multiset(Step(w, depth).queue)[t] <= multiset(w.queue)[t]
  {
    StepEvolves(w, depth);
    if w.queue != [] {
      var w0 := w.(queue := w.queue[1..]);
      var r := Step(w, depth);
      var added := r.queue[|w0.queue|..];
      assert r.queue == w0.queue + added;
      SettledCallbackNotFresh(w, i, t);
      assert t !in added;
      assert w.queue == [w.queue[0]] + w0.queue;
    }
  }

  /** The same over any number of microtasks. */
  lemma {:induction false} RunNeverRequeues(w: World, n: nat, depth: nat, i: nat, t: Task)
    requires WellFormed(w) && SettledCallback(w, i, t)
    ensures multiset(Run(w, n, depth).queue)[t] <= multiset(w.queue)[t]
    decreases n
  {
    if n == 0 || w.queue == [] {
      assert Run(w, n, depth) == w;
    } else {
      var w1 := Step(w, depth);
      assert Run(w, n, depth) == Run(w1, n - 1, depth);
      StepNeverRequeues(w, depth, i, t);
      RunNeverRequeues(w1, n - 1, depth, i, t);
    }
  }

  /**
   * No promise ever holds both a value and a reason: a pending one holds
   * neither, a fulfilled one no reason, a rejected one no value.
   */
  lemma ValueAndReasonExclusive(w: World, n: nat, depth: nat)
    requires WellFormed(w)
    ensures var r := Run(w, n, depth);
      forall i :: 0 <= i < |r.store| ==>
        && (r.store[i].status != Fulfilled ==> r.store[i].value == Null)
        && (r.store[i].status != Rejected ==> r.store[i].reason == Null)
  {
  }

  // ---------------------------------------------------------------------
  // `then` (lines 24-45)
  // ---------------------------------------------------------------------

  /**
   * `then` returns a fresh pending promise and runs no handler: no status,
   * value or reason changes.  A pending receiver gets the continuation
   * appended to its callbacks; a settled one has it queued.
   */
  lemma ThenRegistersOrQueues(w: World, id: nat, onF: Option<Handler>, onR: Option<Handler>)
    requires id < |w.store|
    ensures var (w', q) := Then(w, id, onF, onR);
      var task := ProcessResult(id, q, OrIdentity(onF), OrRethrow(onR));
      && q == |w.store| && |w'.store| == |w.store| + 1
      && w'.store[q] == PromiseState(Pending, Null, Null, [])
      && w'.latches == w.latches
      && (forall i :: 0 <= i < |w.store| ==>
            && w'.store[i].status == w.store[i].status
            && w'.store[i].value == w.store[i].value
            && w'.store[i].reason == w.store[i].reason)
      && (forall i :: 0 <= i < |w.store| && i != id ==> w'.store[i] == w.store[i])
      && (w.store[id].status == Pending ==>
            w'.store[id].callbacks == w.store[id].callbacks + [task] && w'.queue == w.queue)
      && (w.store[id].status != Pending ==>
            w'.store[id] == w.store[id] && w'.queue == w.queue + [task])
  {
  }

  /** A missing or non-function argument becomes identity or rethrow. */
  lemma DefaultHandlers(w: World, v: Value, depth: nat)
    requires WellFormed(w) && ValueOk(v, |w.store|)
    ensures ApplyHandler(w, OrIdentity(None), v, depth) == (w, Returned(v))
    ensures ApplyHandler(w, OrRethrow(None), v, depth) == (w, Threw(v))
  {
  }

  /**
   * With the default `onRejected`, the reason reaches the promise `then`
   * returned unchanged.
   */
  lemma RejectionPassesThrough(w: World, depth: nat)
    requires WellFormed(w) && w.queue != [] && w.queue[0].ProcessResult?
    requires var t := w.queue[0];
      t.onRejected == Rethrow && w.store[t.source].status == Rejected && w.store[t.target].status == Pending
    ensures var t := w.queue[0];
      Step(w, depth).store[t.target].status == Rejected &&
      Step(w, depth).store[t.target].reason == w.store[t.source].reason
  {
  }

  /**
   * With the default `onFulfilled`, a plain value reaches the promise `then`
   * returned unchanged.
   */
  lemma PlainValuePassesThrough(w: World, depth: nat)
    requires WellFormed(w) && w.queue != [] && w.queue[0].ProcessResult? && depth > 0
    requires var t := w.queue[0];
      && t.onFulfilled == Identity && w.store[t.source].status == Fulfilled
      && w.store[t.target].status == Pending
      && Classify(t.target, w.store[t.source].value) == PlainValue
    ensures var t := w.queue[0];
      Step(w, depth).store[t.target].status == Fulfilled &&
      Step(w, depth).store[t.target].value == w.store[t.source].value
  {
  }

  /** A handler that throws `e` rejects the promise `then` returned with `e`. */
  lemma HandlerThrowRejects(w: World, depth: nat)
    requires WellFormed(w) && w.queue != [] && w.queue[0].ProcessResult?
    requires var t := w.queue[0];
      var h := if w.store[t.source].status == Fulfilled then t.onFulfilled else t.onRejected;
      h.Raise? && w.store[t.target].status == Pending
    ensures var t := w.queue[0];
      var h := if w.store[t.source].status == Fulfilled then t.onFulfilled else t.onRejected;
      Step(w, depth).store[t.target].status == Rejected &&
      Step(w, depth).store[t.target].reason == h.e
  {
  }

  // ---------------------------------------------------------------------
  // The resolution procedure (lines 48-96)
  // ---------------------------------------------------------------------

  /** Resolving a promise with itself rejects it with a TypeError (Promises/A+ 2.3.1). */
  lemma SelfResolutionRejects(w: World, p: nat, depth: nat)
    requires WellFormed(w) && p < |w.store| && depth > 0
    ensures ResolvePromise(w, p, Own(p), depth) == (Reject(w, p, Error(TypeError)), Done)
    ensures w.store[p].status == Pending ==>
      ResolvePromise(w, p, Own(p), depth).0.store[p].status == Rejected &&
      ResolvePromise(w, p, Own(p), depth).0.store[p].reason == Error(TypeError)
  {
  }

  /**
   * A primitive, null, undefined, or an object whose `then` is not a
   * function fulfils the promise with the value itself (Promises/A+ 2.3.3.4, 2.3.4).
   */
  lemma PlainValueFulfils(w: World, p: nat, x: Value, depth: nat)
    requires WellFormed(w) && p < |w.store| && ValueOk(x, |w.store|) && depth > 0
    requires x.Undefined? || x.Null? || x.Prim? || x.Obj? || x.Error?
    ensures ResolvePromise(w, p, x, depth) == (Resolve(w, p, x), Done)
    ensures w.store[p].status == Pending ==>
      ResolvePromise(w, p, x, depth).0.store[p].status == Fulfilled &&
      ResolvePromise(w, p, x, depth).0.store[p].value == x
  {
  }

  /** Adopting a fulfilled own promise continues with its value (Promises/A+ 2.3.2.2). */
  lemma AdoptFulfilled(w: World, p: nat, q: nat, depth: nat)
    requires WellFormed(w) && p < |w.store| && q < |w.store| && p != q && depth > 0
    requires w.store[q].status == Fulfilled
    ensures ResolvePromise(w, p, Own(q), depth) == ResolvePromise(w, p, w.store[q].value, depth - 1)
  {
  }

  /**
   * A promise fulfilled with itself, which `resolve` allows, sends the
   * adoption of it into unbounded recursion: each level continues with the
   * same value until the stack is exhausted, and the world is left as it was.
   */
  lemma {:induction false} SelfFulfilledOverflows(w: World, p: nat, q: nat, depth: nat)
    requires WellFormed(w) && p < |w.store| && q < |w.store| && p != q
    requires w.store[q].status == Fulfilled && w.store[q].value == Own(q)
    ensures ResolvePromise(w, p, Own(q), depth) == (w, Threw(Error(RangeError)))
    decreases depth
  {
    if depth > 0 {
      AdoptFulfilled(w, p, q, depth);
      SelfFulfilledOverflows(w, p, q, depth - 1);
    }
  }

  /**
   * ... so the continuation `then` queues on a promise fulfilled with itself
   * rejects the promise `then` returned with the `RangeError`.
   */
  lemma SelfFulfilledContinuationOverflows(w: World, depth: nat)
    requires WellFormed(w) && w.queue != [] && w.queue[0].ProcessResult?
    requires var t := w.queue[0];
      && t.onFulfilled == Identity && t.source != t.target
      && w.store[t.source].status == Fulfilled && w.store[t.source].value == Own(t.source)
      && w.store[t.target].status == Pending
    ensures var t := w.queue[0];
      Step(w, depth).store[t.target].status == Rejected &&
      Step(w, depth).store[t.target].reason == Error(RangeError)
  {
    var t := w.queue[0];
    var w0 := w.(queue := w.queue[1..]);
    assert WellFormed(w0);
    SelfFulfilledOverflows(w0, t.target, t.source, depth);
    assert Step(w, depth) == SettleTarget(w0, t.target, Returned(Own(t.source)), depth);
  }

  /** Adopting a rejected own promise rejects with its reason (Promises/A+ 2.3.2.3). */
  lemma AdoptRejected(w: World, p: nat, q: nat, depth: nat)
    requires WellFormed(w) && p < |w.store| && q < |w.store| && p != q && depth > 0
    requires w.store[q].status == Rejected
    ensures ResolvePromise(w, p, Own(q), depth) == (Reject(w, p, w.store[q].reason), Done)
  {
  }

  /**
   * Adopting a pending own promise subscribes to it with `then` and leaves
   * the adopting promise untouched for now (Promises/A+ 2.3.2.1).
   */
  lemma AdoptPending(w: World, p: nat, q: nat, depth: nat)
    requires WellFormed(w) && p < |w.store| && q < |w.store| && p != q && depth > 0
    requires w.store[q].status == Pending
    ensures var w' := ResolvePromise(w, p, Own(q), depth).0;
      && w' == Then(w, q, Some(ResolveInto(p)), Some(RejectInto(p))).0
      && w'.store[p] == w.store[p]
      && w'.store[q].callbacks == w.store[q].callbacks + [ProcessResult(q, |w.store|, ResolveInto(p), RejectInto(p))]
  {
  }

  /**
   * When the subscription from `AdoptPending` runs after the adopted promise
   * was fulfilled with `v`, the adopting promise ends as `resolvePromise`
   * with `v` leaves it.
   */
  lemma AdoptionFollowsFulfilment(w: World, depth: nat)
    requires WellFormed(w) && w.queue != [] && w.queue[0].ProcessResult?
    requires var t := w.queue[0];
      t.onFulfilled.ResolveInto? && w.store[t.source].status == Fulfilled && t.onFulfilled.target != t.target
    ensures var t := w.queue[0];
      var w0 := w.(queue := w.queue[1..]);
      assert WellFormed(w0);
      Step(w, depth).store[t.onFulfilled.target] ==
        ResolvePromise(w0, t.onFulfilled.target, w.store[t.source].value, depth).0.store[t.onFulfilled.target]
  {
  }

  /** ... and when it was rejected with `e`, the adopting promise is rejected with `e`. */
  lemma AdoptionFollowsRejection(w: World, depth: nat)
    requires WellFormed(w) && w.queue != [] && w.queue[0].ProcessResult?
    requires var t := w.queue[0];
      && t.onRejected.RejectInto? && w.store[t.source].status == Rejected
      && t.onRejected.target != t.target && w.store[t.onRejected.target].status == Pending
    ensures var t := w.queue[0];
      Step(w, depth).store[t.onRejected.target].status == Rejected &&
      Step(w, depth).store[t.onRejected.target].reason == w.store[t.source].reason
  {
  }

  /** A `then` getter that throws rejects the promise with what it threw (Promises/A+ 2.3.3.2). */
  lemma ThrowingGetterRejects(w: World, p: nat, e: Value, depth: nat)
    requires WellFormed(w) && p < |w.store| && ValueOk(e, |w.store|) && depth > 0
    ensures ResolvePromise(w, p, BadThen(e), depth) == (Reject(w, p, e), Done)
  {
  }

  /**
   * Once the latch is tripped, the callbacks do nothing: the rest of the
   * script leaves the store and the latches as they are (Promises/A+ 2.3.3.3.3).
   */
  lemma {:induction false} LatchedScriptInert(w: World, p: nat, l: nat, s: seq<Action>, depth: nat)
    requires WellFormed(w) && p < |w.store| && l < |w.latches| && ScriptOk(s, |w.store|)
    requires w.latches[l]
    ensures RunThenScript(w, p, l, s, depth).0.store == w.store
    ensures RunThenScript(w, p, l, s, depth).0.latches == w.latches
    decreases |s|
  {
    if s != [] {
      assert ScriptOk(s[1..], |w.store|);
      match s[0]
      case CallResolve(v) => LatchedScriptInert(w, p, l, s[1..], depth);
      case CallReject(e) => LatchedScriptInert(w, p, l, s[1..], depth);
      case Throw(e) =>
      case Yield =>
    }
  }

  /** The deferred part of a script whose latch is tripped changes no promise. */
  lemma LatchedForeignTaskInert(w: World, depth: nat)
    requires WellFormed(w) && w.queue != [] && w.queue[0].ForeignCalls?
    requires w.latches[w.queue[0].latch]
    ensures Step(w, depth).store == w.store
  {
    var t := w.queue[0];
    var w0 := w.(queue := w.queue[1..]);
    assert WellFormed(w0);
    LatchedScriptInert(w0, t.target, t.latch, t.script, depth);
  }

  /**
   * Of the two callbacks, only the first call counts: a thenable whose
   * script begins by calling the resolve callback with `v` leaves the store
   * exactly as resolving with `v` does, whatever the script does next,
   * including throwing (Promises/A+ 2.3.3.3.1, 2.3.3.3.3, 2.3.3.3.4.1).
   */
  lemma FirstResolveCallWins(w: World, p: nat, v: Value, rest: seq<Action>, depth: nat)
    requires WellFormed(w) && p < |w.store| && depth > 0
    requires ValueOk(v, |w.store|) && ScriptOk(rest, |w.store|)
    ensures WellFormed(Trip(AddLatch(w), |w.latches|))
    ensures ValueOk(Thenable([CallResolve(v)] + rest), |w.store|)
    ensures ResolvePromise(w, p, Thenable([CallResolve(v)] + rest), depth).0.store ==
      ResolvePromise(Trip(AddLatch(w), |w.latches|), p, v, depth - 1).0.store
  {
    var s := [CallResolve(v)] + rest;
    var l := |w.latches|;
    var w1 := AddLatch(w);
    AddLatchWellFormed(w);
    assert s[0] == CallResolve(v) && s[1..] == rest;
    assert ScriptOk(s, |w.store|);
    assert ResolvePromise(w, p, Thenable(s), depth) == CallForeignThen(w, p, s, depth - 1);
    var wl := Trip(w1, l);
    ResolvePromiseEvolves(wl, p, v, depth - 1);
    var (w2, o) := ResolvePromise(wl, p, v, depth - 1);
    if !o.Threw? {
      ScriptOkGrows(rest, |w.store|, |w2.store|);
      LatchedScriptInert(w2, p, l, rest, depth - 1);
      assert RunThenScript(w1, p, l, s, depth - 1) == RunThenScript(w2, p, l, rest, depth - 1);
    } else {
      assert RunThenScript(w1, p, l, s, depth - 1) == (w2, o);
    }
  }

  /**
   * The same for the reject callback: a script that begins by calling it
   * with `e` rejects the promise with `e`, whatever follows.
   */
  lemma FirstRejectCallWins(w: World, p: nat, e: Value, rest: seq<Action>, depth: nat)
    requires WellFormed(w) && p < |w.store| && depth > 0
    requires ValueOk(e, |w.store|) && ScriptOk(rest, |w.store|)
    ensures ValueOk(Thenable([CallReject(e)] + rest), |w.store|)
    ensures ResolvePromise(w, p, Thenable([CallReject(e)] + rest), depth).0.store == Reject(w, p, e).store
  {
    var s := [CallReject(e)] + rest;
    var l := |w.latches|;
    var w1 := AddLatch(w);
    AddLatchWellFormed(w);
    assert s[0] == CallReject(e) && s[1..] == rest;
    assert ScriptOk(s, |w.store|);
    assert ResolvePromise(w, p, Thenable(s), depth) == CallForeignThen(w, p, s, depth - 1);
    var wl := Trip(w1, l);
    RejectWellFormed(wl, p, e);
    var w2 := Reject(wl, p, e);
    LatchedScriptInert(w2, p, l, rest, depth - 1);
    assert RunThenScript(w1, p, l, s, depth - 1) == RunThenScript(w2, p, l, rest, depth - 1);
  }

  /**
   * A `then` that throws before calling either callback rejects the
   * promise with what it threw (Promises/A+ 2.3.3.3.4.2).
   */
  lemma ThrowBeforeCallRejects(w: World, p: nat, e: Value, rest: seq<Action>, depth: nat)
    requires WellFormed(w) && p < |w.store| && depth > 0
    requires ValueOk(e, |w.store|) && ScriptOk(rest, |w.store|)
    ensures ValueOk(Thenable([Throw(e)] + rest), |w.store|)
    ensures ResolvePromise(w, p, Thenable([Throw(e)] + rest), depth).0.store == Reject(w, p, e).store
  {
    var s := [Throw(e)] + rest;
    var l := |w.latches|;
    var w1 := AddLatch(w);
    AddLatchWellFormed(w);
    assert s[0] == Throw(e);
    assert ScriptOk(s, |w.store|);
    assert ResolvePromise(w, p, Thenable(s), depth) == CallForeignThen(w, p, s, depth - 1);
    assert RunThenScript(w1, p, l, s, depth - 1) == (w1, Threw(e));
  }

}
