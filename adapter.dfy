/**
 * The adapter of promises-aplus/test.js: the three factories that the
 * Promises/A+ compliance suite drives, and a few scenarios built from them
 * that show what the implementation does, step by step.
 */
module AplusAdapter {

  import opened Options
  import opened Promises
  import PromiseProperties

  /** A runtime with no promises, no microtasks and no latches. */
  const Empty: World := World([], [], [])

  /** `resolved(value)` (lines 5-9): a new promise whose executor resolves it at once. */
  function ResolvedPromise(w: World, v: Value): (r: (World, nat))
    ensures r.1 == |w.store| && |r.0.store| == |w.store| + 1
    ensures r.0.store[r.1].status == Fulfilled && r.0.store[r.1].value == v
    ensures r.0.store[..r.1] == w.store && r.0.queue == w.queue && r.0.latches == w.latches
  {
    var (w1, id) := NewPromise(w);
    (Promises.Resolve(w1, id, v), id)
  }

  /** `rejected(reason)` (lines 10-14): a new promise whose executor rejects it at once. */
  function RejectedPromise(w: World, e: Value): (r: (World, nat))
    ensures r.1 == |w.store| && |r.0.store| == |w.store| + 1
    ensures r.0.store[r.1].status == Rejected && r.0.store[r.1].reason == e
    ensures r.0.store[..r.1] == w.store && r.0.queue == w.queue && r.0.latches == w.latches
  {
    var (w1, id) := NewPromise(w);
    (Promises.Reject(w1, id, e), id)
  }

  /**
   * `deferred()` (lines 15-21): a new pending promise; the `resolve` and
   * `reject` it hands out are `Promises.Resolve` and `Promises.Reject` on
   * the id returned.
   */
  function DeferredPromise(w: World): (r: (World, nat))
    ensures r.1 == |w.store| && r.0.store == w.store + [Fresh()]
    ensures r.0.store[r.1].status == Pending && r.0.store[r.1].callbacks == []
    ensures r.0.queue == w.queue && r.0.latches == w.latches
  {
    NewPromise(w)
  }

  /**
   * `resolved(5).then()`: the new promise stays pending until the queued
   * microtask runs, which fulfils it with 5 through the default handler.
   */
  lemma ThenOnResolvedIsAsynchronous()
    ensures var (w1, p) := ResolvedPromise(Empty, Prim(5));
            var (w2, q) := Then(w1, p, None, None);
            w2.store[q].status == Pending && |w2.queue| == 1 &&
            Step(w2, 1).store[q].status == Fulfilled && Step(w2, 1).store[q].value == Prim(5)
  {
    var (w1, p) := ResolvedPromise(Empty, Prim(5));
    var (w2, q) := Then(w1, p, None, None);
    assert w2.queue == [ProcessResult(0, 1, Identity, Rethrow)];
    assert Classify(1, Prim(5)) == PlainValue;
  }

  /** `rejected(r).then()`: the default rejection handler rejects the new promise with `r`. */
  lemma ThenOnRejectedPassesReason()
    ensures var (w1, p) := RejectedPromise(Empty, Obj(1));
            var (w2, q) := Then(w1, p, None, None);
            Step(w2, 1).store[q].status == Rejected && Step(w2, 1).store[q].reason == Obj(1)
  {
    var (w1, p) := RejectedPromise(Empty, Obj(1));
    var (w2, q) := Then(w1, p, None, None);
    assert w2.queue == [ProcessResult(0, 1, Identity, Rethrow)];
  }

  /**
   * `d = deferred(); q = d.promise.then(); d.resolve(3)`: the handler waits
   * in `callbacks`, is queued by `resolve`, and fulfils `q` with 3 when run.
   */
  lemma DeferredQueuesOnResolve()
    ensures var (w1, d) := DeferredPromise(Empty);
            var (w2, q) := Then(w1, d, None, None);
            var w3 := Promises.Resolve(w2, d, Prim(3));
            w2.queue == [] && |w2.store[d].callbacks| == 1 && |w3.queue| == 1 &&
            Step(w3, 1).store[q].status == Fulfilled && Step(w3, 1).store[q].value == Prim(3)
  {
    var (w1, d) := DeferredPromise(Empty);
    var (w2, q) := Then(w1, d, None, None);
    var w3 := Promises.Resolve(w2, d, Prim(3));
    assert w3.queue == [ProcessResult(0, 1, Identity, Rethrow)];
    assert Classify(1, Prim(3)) == PlainValue;
  }

  /**
   * The world after `inner = deferred()`, `outer = deferred()`,
   * `outer.resolve(inner)` and `t = outer.promise.then()`.
   */
  const AfterThen: World :=
    World([Fresh(), PromiseState(Fulfilled, Own(0), Null, []), Fresh()],
          [ProcessResult(1, 2, Identity, Rethrow)], [])

  /** ... and after that microtask has run: `t` waits on `inner`. */
  const Subscribed: World :=
    World([PromiseState(Pending, Null, Null, [ProcessResult(0, 3, ResolveInto(2), RejectInto(2))]),
           PromiseState(Fulfilled, Own(0), Null, []), Fresh(), Fresh()], [], [])

  /**
   * `outer.resolve(inner)` with `inner` a pending promise: `resolve` does not
   * adopt, so `outer` is fulfilled with the promise object itself, and
   * `outer.then()` queues its continuation (`AfterThen`).
   */
  lemma ResolveWithPromiseDoesNotAdopt()
    ensures var (w1, inner) := DeferredPromise(Empty);
            var (w2, outer) := DeferredPromise(w1);
            var w3 := Promises.Resolve(w2, outer, Own(inner));
            && w3.store[outer].status == Fulfilled && w3.store[outer].value == Own(inner)
            && Then(w3, outer, None, None) == (AfterThen, 2)
  {
    var (w1, inner) := DeferredPromise(Empty);
    var (w2, outer) := DeferredPromise(w1);
    assert w2 == World([Fresh(), Fresh()], [], []);
    var w3 := Promises.Resolve(w2, outer, Own(inner));
    assert w3 == World([Fresh(), PromiseState(Fulfilled, Own(0), Null, [])], [], []);
    var r := Then(w3, outer, None, None);
    assert r.0.store == w3.store + [Fresh()] == AfterThen.store;
    assert r.0 == AfterThen;
  }

  /**
   * Running that continuation passes the object `inner` through
   * `resolvePromise`, which subscribes `t` to `inner` with `then`; `t`
   * stays pending.
   */
  lemma AfterThenWellFormed()
    ensures WellFormed(AfterThen) && WellFormed(AfterThen.(queue := []))
  {
    assert WellFormed(AfterThen);
    assert WellFormed(AfterThen.(queue := []));
  }

  lemma ThenOnOuterFollowsInner()
    ensures WellFormed(AfterThen)
    ensures Step(AfterThen, 2) == Subscribed && Subscribed.store[2].status == Pending
  {
    AfterThenWellFormed();
    var w0 := AfterThen.(queue := []);
    var cb := ProcessResult(0, 3, ResolveInto(2), RejectInto(2));
    assert OrIdentity(Some(ResolveInto(2))) == ResolveInto(2);
    assert OrRethrow(Some(RejectInto(2))) == RejectInto(2);
    var sub := Then(w0, 0, Some(ResolveInto(2)), Some(RejectInto(2))).0;
    assert w0.store[0].callbacks + [cb] == [cb];
    assert sub.store == w0.store[0 := w0.store[0].(callbacks := w0.store[0].callbacks + [cb])] + [Fresh()];
    assert sub.store == Subscribed.store;
    assert sub == Subscribed;
    PromiseProperties.AdoptPending(w0, 2, 0, 2);
    assert ProcessResultOf(w0, 1, 2, Identity, Rethrow, 2) == SettleTarget(w0, 2, Returned(Own(0)), 2);
  }

  /** ... and after `inner.resolve(7)`: the subscription is queued. */
  const Notified: World :=
    World([PromiseState(Fulfilled, Prim(7), Null, [ProcessResult(0, 3, ResolveInto(2), RejectInto(2))]),
           PromiseState(Fulfilled, Own(0), Null, []), Fresh(), Fresh()],
          [ProcessResult(0, 3, ResolveInto(2), RejectInto(2))], [])

  lemma SubscribedWellFormed()
    ensures WellFormed(Subscribed)
  {
    assert WellFormed(Subscribed);
  }

  /** `inner.resolve(7)` fulfils `inner` and queues the subscription of `t`. */
  lemma InnerResolveQueuesSubscription()
    ensures WellFormed(Subscribed) && Promises.Resolve(Subscribed, 0, Prim(7)) == Notified
  {
    SubscribedWellFormed();
    var w := Promises.Resolve(Subscribed, 0, Prim(7));
    assert w.queue == Notified.queue;
    assert w.store == Notified.store;
  }

  lemma NotifiedWellFormed()
    ensures WellFormed(Notified) && WellFormed(Notified.(queue := []))
  {
    assert WellFormed(Notified);
    assert WellFormed(Notified.(queue := []));
  }

  /** Once the queued subscription runs, `t` is fulfilled with 7. */
  lemma InnerResolveFulfilsThen()
    ensures WellFormed(Notified)
    ensures Step(Notified, 2).store[2].status == Fulfilled && Step(Notified, 2).store[2].value == Prim(7)
  {
    NotifiedWellFormed();
    PromiseProperties.AdoptionFollowsFulfilment(Notified, 2);
    PromiseProperties.PlainValueFulfils(Notified.(queue := []), 2, Prim(7), 2);
  }

  /** A promise fulfilled with itself, ... */
  const SelfFulfilled: World := World([PromiseState(Fulfilled, Own(0), Null, [])], [], [])

  /** ... and after `t = d.promise.then()`. */
  const SelfThen: World :=
    World([PromiseState(Fulfilled, Own(0), Null, []), Fresh()], [ProcessResult(0, 1, Identity, Rethrow)], [])

  /** `d.resolve(d.promise)`: `resolve` does not check for a cycle; `d` is fulfilled with itself. */
  lemma ResolveWithItself()
    ensures var (w1, d) := DeferredPromise(Empty);
            var w2 := Promises.Resolve(w1, d, Own(d));
            && w2.store[d].status == Fulfilled && w2.store[d].value == Own(d)
            && w2 == SelfFulfilled && Then(w2, d, None, None) == (SelfThen, 1)
  {
    var (w1, d) := DeferredPromise(Empty);
    assert w1 == World([Fresh()], [], []);
    var w2 := Promises.Resolve(w1, d, Own(d));
    assert w2 == SelfFulfilled;
    var r := Then(w2, 0, None, None);
    assert r.0.queue == [ProcessResult(0, 1, Identity, Rethrow)];
    assert r.0.store == SelfFulfilled.store + [Fresh()] == SelfThen.store;
    assert r == (SelfThen, 1);
  }

  /**
   * Running the continuation of `t` adopts `d`, whose value is `d` again, so
   * `resolvePromise` recurses until the stack runs out, whatever stack there
   * is, and `t` is rejected with the `RangeError`.
   */
  lemma SelfFulfilledThenOverflows(depth: nat)
    ensures WellFormed(SelfThen)
    ensures Step(SelfThen, depth).store[1].status == Rejected
    ensures Step(SelfThen, depth).store[1].reason == Error(RangeError)
  {
    assert WellFormed(SelfThen);
    PromiseProperties.SelfFulfilledContinuationOverflows(SelfThen, depth);
  }

  /**
   * `q = resolved(1).then(() => q)`: the handler's result is `q` itself, so
   * `resolvePromise` rejects `q` with a TypeError.
   */
  lemma HandlerReturningOwnPromiseRejects()
    ensures var (w1, p) := ResolvedPromise(Empty, Prim(1));
            var (w2, q) := Then(w1, p, Some(Return(Own(1))), None);
            q == 1 && Step(w2, 1).store[q].status == Rejected &&
            Step(w2, 1).store[q].reason == Error(TypeError)
  {
    var (w1, p) := ResolvedPromise(Empty, Prim(1));
    var (w2, q) := Then(w1, p, Some(Return(Own(1))), None);
    assert w2.queue == [ProcessResult(0, 1, Return(Own(1)), Rethrow)];
    assert Classify(1, Own(1)) == SelfReference;
  }
}
