/**
 * The mutable side of promises-aplus/promise.js: every `_Promise` object's
 * fields, the microtask queue and the `hasCalled` latches live in the
 * fields of one `Runtime`, and its methods update them in place the way
 * the JavaScript does.  Each method is proved to leave the state that the
 * corresponding function of module `Promises` describes.
 */
module PromiseRuntime {

  import opened Options
  import opened Promises

  class Runtime {
    /** The fields of promise `i` are `store[i]`. */
    var store: seq<PromiseState>
    /** The microtasks handed to `queueMicrotask`, oldest first. */
    var queue: seq<Task>
    /** The `hasCalled` variables of the thenable branch of `resolvePromise`. */
    var latches: seq<bool>

    function State(): World
      reads this
    {
      World(store, queue, latches)
    }

    ghost predicate Valid()
      reads this
    {
      WellFormed(State())
    }

    constructor ()
      ensures Valid() && State() == World([], [], [])
    {
      store, queue, latches := [], [], [];
    }

    /** `new _Promise(executor)` (lines 2-8); the caller then acts as the executor. */
    method NewPromise() returns (id: nat)
      requires Valid()
      modifies this
      ensures Valid() && (State(), id) == Promises.NewPromise(old(State()))
    {
      NewPromiseWellFormed(State());
      id := |store|;
      store := store + [PromiseState(Pending, Null, Null, [])];
    }

    /** Queue each of `tasks` in turn (`callbacks.forEach(queueMicrotask)`). */
    method EnqueueAll(tasks: seq<Task>)
      modifies this
      ensures store == old(store) && latches == old(latches)
      ensures queue == old(queue) + tasks
    {
      for k := 0 to |tasks|
        invariant store == old(store) && latches == old(latches)
        invariant queue == old(queue) + tasks[..k]
      {
        queue := queue + [tasks[k]];
      }
      assert tasks[..|tasks|] == tasks;
    }

    /** `resolve(value)` (lines 10-15). */
    method Resolve(id: nat, v: Value)
      requires Valid() && id < |store| && ValueOk(v, |store|)
      modifies this
      ensures Valid() && State() == Promises.Resolve(old(State()), id, v)
    {
      ResolveWellFormed(State(), id, v);
      if store[id].status != Pending {
        return;
      }
      var callbacks := store[id].callbacks;
      store := store[id := store[id].(status := Fulfilled, value := v)];
      EnqueueAll(callbacks);
    }

    /** `reject(reason)` (lines 17-22). */
    method Reject(id: nat, e: Value)
      requires Valid() && id < |store| && ValueOk(e, |store|)
      modifies this
      ensures Valid() && State() == Promises.Reject(old(State()), id, e)
    {
      RejectWellFormed(State(), id, e);
      if store[id].status != Pending {
        return;
      }
      var callbacks := store[id].callbacks;
      store := store[id := store[id].(status := Rejected, reason := e)];
      EnqueueAll(callbacks);
    }

    /** `then(onFulfilled, onRejected)` (lines 24-45). */
    method Then(id: nat, onF: Option<Handler>, onR: Option<Handler>) returns (q: nat)
      requires Valid() && id < |store|
      requires onF.Some? ==> HandlerOk(onF.value, |store|)
      requires onR.Some? ==> HandlerOk(onR.value, |store|)
      modifies this
      ensures Valid() && (State(), q) == Promises.Then(old(State()), id, onF, onR)
    {
      ThenWellFormed(State(), id, onF, onR);
      var f := if onF.Some? then onF.value else Identity;
      var g := if onR.Some? then onR.value else Rethrow;
      ghost var before := store;
      q := |store|;
      store := store + [PromiseState(Pending, Null, Null, [])];
      var task := ProcessResult(id, q, f, g);
      if store[id].status == Pending {
        store := store[id := store[id].(callbacks := store[id].callbacks + [task])];
        assert store == before[id := before[id].(callbacks := before[id].callbacks + [task])] + [Fresh()];
      } else {
        queue := queue + [task];
      }
    }

    /** `resolvePromise(promise, x)` (lines 48-96), with `depth` the stack left for it. */
    method ResolvePromise(p: nat, x: Value, depth: nat) returns (o: Outcome)
      requires Valid() && p < |store| && ValueOk(x, |store|)
      modifies this
      ensures Valid() && (State(), o) == Promises.ResolvePromise(old(State()), p, x, depth)
      decreases depth, 0, 0
    {
      if depth == 0 {
        return Threw(Error(RangeError));
      }
      match Classify(p, x) {
        case SelfReference =>
          Reject(p, Error(TypeError));
          o := Done;
        case OwnPromise(q) =>
          if store[q].status == Fulfilled {
            o := ResolvePromise(p, store[q].value, depth - 1);
          } else if store[q].status == Rejected {
            Reject(p, store[q].reason);
            o := Done;
          } else {
            var subscribed := Then(q, Some(ResolveInto(p)), Some(RejectInto(p)));
            o := Done;
          }
        case ThenGetterThrows(e) =>
          Reject(p, e);
          o := Done;
        case ForeignThenable(s) =>
          o := CallForeignThen(p, s, depth - 1);
        case PlainValue =>
          Resolve(p, x);
          o := Done;
      }
    }

    /** The thenable branch (lines 70-89): latch, call, and the `catch`. */
    method CallForeignThen(p: nat, s: seq<Action>, depth: nat) returns (o: Outcome)
      requires Valid() && p < |store| && ScriptOk(s, |store|)
      modifies this
      ensures Valid() && (State(), o) == Promises.CallForeignThen(old(State()), p, s, depth)
      decreases depth, 2, 0
    {
      AddLatchWellFormed(State());
      var l := |latches|;
      latches := latches + [false];
      var thrown := RunThenScript(p, l, s, depth);
      if thrown.Threw? && !latches[l] {
        Reject(p, thrown.e);
      }
      o := Done;
    }

    /**
     * The foreign `then` body, run against the two callbacks of lines 75-84:
     * each checks and trips the latch `l` before acting.
     */
    method RunThenScript(p: nat, l: nat, s: seq<Action>, depth: nat) returns (o: Outcome)
      requires Valid() && p < |store| && l < |latches| && ScriptOk(s, |store|)
      modifies this
      ensures Valid() && (State(), o) == Promises.RunThenScript(old(State()), p, l, s, depth)
      decreases depth, 1, |s|
    {
      var k := 0;
      while k < |s|
        invariant k <= |s|
        invariant Valid() && p < |store| && l < |latches| && ScriptOk(s[k..], |store|)
        invariant Promises.RunThenScript(old(State()), p, l, s, depth) == Promises.RunThenScript(State(), p, l, s[k..], depth)
        decreases |s| - k
      {
        assert s[k..][0] == s[k] && s[k..][1..] == s[k + 1..];
        assert ScriptOk(s[k + 1..], |store|);
        ghost var w := State();
        match s[k] {
          case CallResolve(v) =>
            if !latches[l] {
              TripWellFormed(w, l);
              latches := latches[l := true];
              ghost var n := |store|;
              var r := ResolvePromise(p, v, depth);
              assert (State(), r) == Promises.ResolvePromise(Trip(w, l), p, v, depth);
              if r.Threw? {
                return r;
              }
              ScriptOkGrows(s[k + 1..], n, |store|);
              assert Promises.RunThenScript(w, p, l, s[k..], depth) == Promises.RunThenScript(State(), p, l, s[k + 1..], depth);
            }
          case CallReject(e) =>
            if !latches[l] {
              TripWellFormed(w, l);
              latches := latches[l := true];
              Reject(p, e);
              assert State() == Promises.Reject(Trip(w, l), p, e);
            }
          case Throw(e) =>
            return Threw(e);
          case Yield =>
            queue := queue + [ForeignCalls(p, l, s[k + 1..])];
            return Done;
        }
        k := k + 1;
      }
      o := Done;
    }

    /** Calling a handler with `arg`. */
    method ApplyHandler(h: Handler, arg: Value, depth: nat) returns (o: Outcome)
      requires Valid() && HandlerOk(h, |store|) && ValueOk(arg, |store|)
      modifies this
      ensures Valid() && (State(), o) == Promises.ApplyHandler(old(State()), h, arg, depth)
    {
      match h {
        case Identity => o := Returned(arg);
        case Rethrow => o := Threw(arg);
        case Return(v) => o := Returned(v);
        case Raise(e) => o := Threw(e);
        case ResolveInto(t) =>
          var r := ResolvePromise(t, arg, depth);
          o := if r.Threw? then r else Returned(Undefined);
        case RejectInto(t) =>
          Reject(t, arg);
          o := Returned(Undefined);
      }
    }

    /** `processResult` (lines 32-40): the handler, then `SettleTarget`. */
    method ProcessResultOf(src: nat, tgt: nat, f: Handler, g: Handler, depth: nat)
      requires Valid() && src < |store| && tgt < |store| && HandlerOk(f, |store|) && HandlerOk(g, |store|)
      modifies this
      ensures Valid() && State() == Promises.ProcessResultOf(old(State()), src, tgt, f, g, depth)
    {
      var o: Outcome;
      if store[src].status == Fulfilled {
        o := ApplyHandler(f, store[src].value, depth);
      } else {
        o := ApplyHandler(g, store[src].reason, depth);
      }
      SettleTarget(tgt, o, depth);
    }

    /** The `try` body after the handler, and its `catch` (lines 33-39). */
    method SettleTarget(tgt: nat, o: Outcome, depth: nat)
      requires Valid() && tgt < |store| && OutcomeOk(o, |store|)
      modifies this
      ensures Valid() && State() == Promises.SettleTarget(old(State()), tgt, o, depth)
    {
      if o.Threw? {
        Reject(tgt, o.e);
      } else {
        var o2 := ResolvePromise(tgt, o.v, depth);
        if o2.Threw? {
          Reject(tgt, o2.e);
        }
      }
    }

    /** Take the oldest microtask off the queue and run it. */
    method Step(depth: nat)
      requires Valid()
      modifies this
      ensures Valid() && State() == Promises.Step(old(State()), depth)
    {
      if queue == [] {
        return;
      }
      var task := queue[0];
      queue := queue[1..];
      match task {
        case ProcessResult(src, tgt, f, g) =>
          ProcessResultOf(src, tgt, f, g, depth);
        case ForeignCalls(t, l, s) =>
          var uncaught := RunThenScript(t, l, s, depth);
      }
    }

    /** Run microtasks in order until the queue is empty or `n` have run. */
    method Run(n: nat, depth: nat)
      requires Valid()
      modifies this
      ensures Valid() && State() == Promises.Run(old(State()), n, depth)
    {
      var k := 0;
      while k < n && queue != []
        invariant k <= n && Valid()
        invariant Promises.Run(old(State()), n, depth) == Promises.Run(State(), n - k, depth)
      {
        ghost var before := State();
        assert Promises.Run(before, n - k, depth) == Promises.Run(Promises.Step(before, depth), n - k - 1, depth);
        Step(depth);
        assert State() == Promises.Step(before, depth);
        k := k + 1;
      }
    }
  }
}
