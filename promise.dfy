/**
 * The Promises/A+ deferred value of promises-aplus/promise.js, as a state
 * machine over an explicit world:
 *
 *  - `store` holds one record per `_Promise` object (its fields `status`,
 *    `value`, `reason` and `callbacks`), indexed by the object's identity;
 *  - `queue` is the FIFO of microtasks that `queueMicrotask` feeds;
 *  - `latches` holds the `hasCalled` variables of the thenable branch of
 *    `resolvePromise`, since the two callbacks that share one may run long
 *    after `resolvePromise` has returned.
 *
 * JavaScript values are classified once into the closed type `Value`; the
 * body of a foreign thenable's `then` method is a finite script of actions.
 * The functions here are the specification; the class `Runtime` in
 * runtime.dfy carries the same state as fields and is proved against them.
 */
module Promises {

  import opened Options

  /** The error classes the core itself throws. */
  datatype ErrorKind = TypeError | RangeError

  /** A JavaScript value, by what `resolvePromise` can tell of it. */
  datatype Value =
    | Undefined
    | Null
    | Prim(n: int)                   // numbers, strings, booleans
    | Obj(tag: int)                  // an object whose `then` is not a function
    | Error(kind: ErrorKind)         // a `new TypeError()` or a stack overflow's `RangeError`
    | Own(id: nat)                   // an `_Promise` object
    | Thenable(script: seq<Action>)  // an object whose `then` is a function
    | BadThen(thrown: Value)         // an object whose `then` getter throws

  /** What the body of a foreign `then(onResolve, onReject)` does, in order. */
  datatype Action =
    | CallResolve(arg: Value)  // calls its first argument with `arg`
    | CallReject(arg: Value)   // calls its second argument with `arg`
    | Throw(arg: Value)        // throws `arg`
    | Yield                    // returns, and runs the rest of the script in a later task

  datatype Status = Pending | Fulfilled | Rejected

  /** The functions `then` can be given or creates. */
  datatype Handler =
    | Identity                 // `value => value`, the default `onFulfilled`
    | Rethrow                  // `reason => { throw reason; }`, the default `onRejected`
    | Return(v: Value)         // a function returning `v`
    | Raise(e: Value)          // a function throwing `e`
    | ResolveInto(target: nat) // `value => resolvePromise(promise, value)`
    | RejectInto(target: nat)  // `reason => promise.reject(reason)`

  /** A scheduled or registered continuation. */
  datatype Task =
    | ProcessResult(source: nat, target: nat, onFulfilled: Handler, onRejected: Handler)
    | ForeignCalls(target: nat, latch: nat, script: seq<Action>)

  /** The four fields of one `_Promise` object. */
  datatype PromiseState = PromiseState(status: Status, value: Value, reason: Value, callbacks: seq<Task>)

  datatype World = World(store: seq<PromiseState>, queue: seq<Task>, latches: seq<bool>)

  /** How a JavaScript call ended. */
  datatype Outcome = Returned(v: Value) | Threw(e: Value)

  /** The four branches of `resolvePromise`, plus self-reference. */
  datatype Kind =
    | SelfReference                    // x === promise
    | OwnPromise(id: nat)              // x instanceof _Promise
    | ThenGetterThrows(e: Value)       // reading x.then throws
    | ForeignThenable(script: seq<Action>) // x.then is a function
    | PlainValue                       // anything else

  const Done: Outcome := Returned(Undefined)

  // ---------------------------------------------------------------------
  // Well-formedness: every promise reference and every latch points into
  // the world.  JavaScript references cannot dangle; this says the same.
  // ---------------------------------------------------------------------

  ghost predicate ValueOk(v: Value, n: nat)
    decreases v
  {
    match v
    case Own(id) => id < n
    case Thenable(s) => forall i :: 0 <= i < |s| ==> s[i].Yield? || ValueOk(s[i].arg, n)
    case BadThen(e) => ValueOk(e, n)
    case _ => true
  }

  ghost predicate ScriptOk(s: seq<Action>, n: nat)
  {
    forall i :: 0 <= i < |s| ==> s[i].Yield? || ValueOk(s[i].arg, n)
  }

  ghost predicate HandlerOk(h: Handler, n: nat)
  {
    match h
    case Return(v) => ValueOk(v, n)
    case Raise(e) => ValueOk(e, n)
    case ResolveInto(t) => t < n
    case RejectInto(t) => t < n
    case _ => true
  }

  ghost predicate TaskOk(t: Task, n: nat, ln: nat)
  {
    match t
    case ProcessResult(s, g, f, r) => s < n && g < n && HandlerOk(f, n) && HandlerOk(r, n)
    case ForeignCalls(g, l, sc) => g < n && l < ln && ScriptOk(sc, n)
  }

  ghost predicate TasksOk(ts: seq<Task>, n: nat, ln: nat)
  {
    forall i :: 0 <= i < |ts| ==> TaskOk(ts[i], n, ln)
  }

  /**
   * A record's references are valid, and it never holds both a value and a
   * reason: the constructor sets both to `null` (lines 4-5), and `resolve`
   * and `reject` each set only one of them, and only while pending.
   */
  ghost predicate RecordOk(r: PromiseState, n: nat, ln: nat)
  {
    && ValueOk(r.value, n) && ValueOk(r.reason, n) && TasksOk(r.callbacks, n, ln)
    && (r.status != Fulfilled ==> r.value == Null)
    && (r.status != Rejected ==> r.reason == Null)
  }

  /** Every task registered with promise `i` is a continuation of `i` (line 42). */
  ghost predicate OwnedBy(cbs: seq<Task>, i: nat)
  {
    forall k :: 0 <= k < |cbs| ==> cbs[k].ProcessResult? && cbs[k].source == i
  }

  /**
   * No two callbacks of one promise share a target: each `then` creates the
   * promise its continuation settles (line 31).
   */
  ghost predicate DistinctTargets(cbs: seq<Task>)
  {
    forall j, k :: 0 <= j < k < |cbs| ==> cbs[j].target != cbs[k].target
  }

  /** None of `cbs` is in the queue `q`. */
  ghost predicate NoneQueued(cbs: seq<Task>, q: seq<Task>)
  {
    forall k :: 0 <= k < |cbs| ==> multiset(q)[cbs[k]] == 0
  }

  /**
   * Every reference is valid, every record is consistent and owns its
   * callbacks, and the callbacks of a pending promise are not queued yet:
   * only `resolve` and `reject` queue them (lines 14 and 21).
   */
  ghost predicate WellFormed(w: World)
  {
    && (forall i :: 0 <= i < |w.store| ==>
          && RecordOk(w.store[i], |w.store|, |w.latches|)
          && OwnedBy(w.store[i].callbacks, i)
          && DistinctTargets(w.store[i].callbacks)
          && (w.store[i].status == Pending ==> NoneQueued(w.store[i].callbacks, w.queue)))
    && TasksOk(w.queue, |w.store|, |w.latches|)
  }

  ghost predicate OutcomeOk(o: Outcome, n: nat)
  {
    match o
    case Returned(v) => ValueOk(v, n)
    case Threw(e) => ValueOk(e, n)
  }

  lemma {:induction false} ValueOkGrows(v: Value, n: nat, m: nat)
    requires ValueOk(v, n) && n <= m
    ensures ValueOk(v, m)
    decreases v
  {
    match v
    case Thenable(s) =>
      forall i | 0 <= i < |s| && !s[i].Yield?
        ensures ValueOk(s[i].arg, m)
      {
        ValueOkGrows(s[i].arg, n, m);
      }
    case BadThen(e) => ValueOkGrows(e, n, m);
    case _ =>
  }

  lemma ScriptOkGrows(s: seq<Action>, n: nat, m: nat)
    requires ScriptOk(s, n) && n <= m
    ensures ScriptOk(s, m)
  {
    forall i | 0 <= i < |s| && !s[i].Yield?
      ensures ValueOk(s[i].arg, m)
    {
      ValueOkGrows(s[i].arg, n, m);
    }
  }

  lemma TaskOkGrows(t: Task, n: nat, m: nat, ln: nat, lm: nat)
    requires TaskOk(t, n, ln) && n <= m && ln <= lm
    ensures TaskOk(t, m, lm)
  {
    match t
    case ProcessResult(s, g, f, r) =>
      if f.Return? { ValueOkGrows(f.v, n, m); }
      if f.Raise? { ValueOkGrows(f.e, n, m); }
      if r.Return? { ValueOkGrows(r.v, n, m); }
      if r.Raise? { ValueOkGrows(r.e, n, m); }
    case ForeignCalls(g, l, sc) => ScriptOkGrows(sc, n, m);
  }

  lemma TasksOkGrows(ts: seq<Task>, n: nat, m: nat, ln: nat, lm: nat)
    requires TasksOk(ts, n, ln) && n <= m && ln <= lm
    ensures TasksOk(ts, m, lm)
  {
    forall i | 0 <= i < |ts|
      ensures TaskOk(ts[i], m, lm)
    {
      TaskOkGrows(ts[i], n, m, ln, lm);
    }
  }

  lemma RecordOkGrows(r: PromiseState, n: nat, m: nat, ln: nat, lm: nat)
    requires RecordOk(r, n, ln) && n <= m && ln <= lm
    ensures RecordOk(r, m, lm)
  {
    ValueOkGrows(r.value, n, m);
    ValueOkGrows(r.reason, n, m);
    TasksOkGrows(r.callbacks, n, m, ln, lm);
  }

  // ---------------------------------------------------------------------
  // The `_Promise` methods (promise.js lines 2-45).
  // ---------------------------------------------------------------------

  /** The fields as the constructor sets them (lines 3-6). */
  function Fresh(): (r: PromiseState)
  {
    PromiseState(Pending, Null, Null, [])
  }

  /**
   * `new _Promise(executor)` (lines 2-8): a new pending object.  The
   * executor is whoever holds the id afterwards and calls `Resolve` or
   * `Reject` on it.
   */
  function NewPromise(w: World): (r: (World, nat))
    ensures r.1 == |w.store| && |r.0.store| == |w.store| + 1 && r.0.store[..r.1] == w.store
    ensures r.0.store[r.1].status == Pending && r.0.store[r.1].callbacks == []
    ensures r.0.queue == w.queue && r.0.latches == w.latches
  {
    (w.(store := w.store + [Fresh()]), |w.store|)
  }

  /** `resolve(value)` (lines 10-15): fulfil directly, with no adoption. */
  function Resolve(w: World, id: nat, v: Value): (r: World)
    requires id < |w.store|
    ensures |r.store| == |w.store| && r.latches == w.latches && w.queue <= r.queue
    ensures r.store[id].status != Pending
    ensures w.store[id].status == Pending ==> r.store[id].status == Fulfilled && r.store[id].value == v
  {
    var p := w.store[id];
    if p.status != Pending then w
    else w.(store := w.store[id := p.(status := Fulfilled, value := v)], queue := w.queue + p.callbacks)
  }

  /** `reject(reason)` (lines 17-22). */
  function Reject(w: World, id: nat, e: Value): (r: World)
    requires id < |w.store|
    ensures |r.store| == |w.store| && r.latches == w.latches && w.queue <= r.queue
    ensures r.store[id].status != Pending
    ensures w.store[id].status == Pending ==> r.store[id].status == Rejected && r.store[id].reason == e
  {
    var p := w.store[id];
    if p.status != Pending then w
    else w.(store := w.store[id := p.(status := Rejected, reason := e)], queue := w.queue + p.callbacks)
  }

  /** The handlers `then` uses for its two arguments (lines 25-30). */
  function OrIdentity(h: Option<Handler>): (r: Handler)
    ensures h.Some? ==> r == h.value
    ensures h.None? ==> r == Identity
  {
    if h.Some? then h.value else Identity
  }

  function OrRethrow(h: Option<Handler>): (r: Handler)
    ensures h.Some? ==> r == h.value
    ensures h.None? ==> r == Rethrow
  {
    if h.Some? then h.value else Rethrow
  }

  /**
   * `then(onFulfilled, onRejected)` (lines 24-45): a new pending promise,
   * and its continuation either registered (receiver pending) or queued.
   * `None` stands for an argument that is not a function.
   */
  function Then(w: World, id: nat, onF: Option<Handler>, onR: Option<Handler>): (r: (World, nat))
    requires id < |w.store|
    ensures r.1 == |w.store| && |r.0.store| == |w.store| + 1 && r.0.store[r.1] == Fresh()
    ensures r.0.latches == w.latches && w.queue <= r.0.queue
  {
    var q := |w.store|;
    var task := ProcessResult(id, q, OrIdentity(onF), OrRethrow(onR));
    var p := w.store[id];
    if p.status == Pending then
      (w.(store := w.store[id := p.(callbacks := p.callbacks + [task])] + [Fresh()]), q)
    else
      (w.(store := w.store + [Fresh()], queue := w.queue + [task]), q)
  }

  /** Trip the latch `l`. */
  function Trip(w: World, l: nat): (r: World)
    requires l < |w.latches|
  {
    w.(latches := w.latches[l := true])
  }

  /** `let hasCalled = false` (line 71): a fresh, untripped latch. */
  function AddLatch(w: World): (r: World)
  {
    w.(latches := w.latches + [false])
  }

  lemma TripWellFormed(w: World, l: nat)
    requires WellFormed(w) && l < |w.latches|
    ensures WellFormed(Trip(w, l))
  {
  }

  lemma AddLatchWellFormed(w: World)
    requires WellFormed(w)
    ensures WellFormed(AddLatch(w))
  {
    var w1 := AddLatch(w);
    TasksOkGrows(w.queue, |w.store|, |w.store|, |w.latches|, |w1.latches|);
    forall i | 0 <= i < |w1.store|
      ensures RecordOk(w1.store[i], |w1.store|, |w1.latches|)
    {
      RecordOkGrows(w.store[i], |w.store|, |w.store|, |w.latches|, |w1.latches|);
    }
  }

  lemma NewPromiseWellFormed(w: World)
    requires WellFormed(w)
    ensures WellFormed(NewPromise(w).0)
  {
    var n := |w.store|;
    forall i | 0 <= i < n
      ensures RecordOk(w.store[i], n + 1, |w.latches|)
    {
      RecordOkGrows(w.store[i], n, n + 1, |w.latches|, |w.latches|);
    }
    TasksOkGrows(w.queue, n, n + 1, |w.latches|, |w.latches|);
  }

  lemma ResolveWellFormed(w: World, id: nat, v: Value)
    requires WellFormed(w) && id < |w.store| && ValueOk(v, |w.store|)
    ensures WellFormed(Resolve(w, id, v))
  {
  }

  lemma RejectWellFormed(w: World, id: nat, e: Value)
    requires WellFormed(w) && id < |w.store| && ValueOk(e, |w.store|)
    ensures WellFormed(Reject(w, id, e))
  {
  }

  lemma ThenWellFormed(w: World, id: nat, onF: Option<Handler>, onR: Option<Handler>)
    requires WellFormed(w) && id < |w.store|
    requires onF.Some? ==> HandlerOk(onF.value, |w.store|)
    requires onR.Some? ==> HandlerOk(onR.value, |w.store|)
    ensures WellFormed(Then(w, id, onF, onR).0)
  {
    var n := |w.store|;
    var ln := |w.latches|;
    var task := ProcessResult(id, n, OrIdentity(onF), OrRethrow(onR));
    var w' := Then(w, id, onF, onR).0;
    forall i | 0 <= i < n
      ensures RecordOk(w.store[i], n + 1, ln)
    {
      RecordOkGrows(w.store[i], n, n + 1, ln, ln);
    }
    TasksOkGrows(w.queue, n, n + 1, ln, ln);
    var h1 := OrIdentity(onF);
    var h2 := OrRethrow(onR);
    if h1.Return? { ValueOkGrows(h1.v, n, n + 1); }
    if h1.Raise? { ValueOkGrows(h1.e, n, n + 1); }
    if h2.Return? { ValueOkGrows(h2.v, n, n + 1); }
    if h2.Raise? { ValueOkGrows(h2.e, n, n + 1); }
    assert TaskOk(task, n + 1, ln);
    forall i | 0 <= i < n + 1
      ensures RecordOk(w'.store[i], n + 1, ln)
    {
    }
  }

  // ---------------------------------------------------------------------
  // The Promise Resolution Procedure `resolvePromise` (lines 48-96).
  // `depth` is the stack the host has left for nested calls of it: a call
  // with none left throws a RangeError, as a JavaScript stack overflow does.
  // ---------------------------------------------------------------------

  /** The case split of `resolvePromise` on `x` (lines 49, 51, 62-70). */
  function Classify(p: nat, x: Value): (k: Kind)
    ensures k == SelfReference <==> x == Own(p)
    ensures k.OwnPromise? <==> x.Own? && x.id != p
    ensures k.OwnPromise? ==> x == Own(k.id)
    ensures k.ThenGetterThrows? <==> x.BadThen?
    ensures k.ThenGetterThrows? ==> k.e == x.thrown
    ensures k.ForeignThenable? <==> x.Thenable?
    ensures k.ForeignThenable? ==> k.script == x.script
  {
    match x
    case Own(q) => if q == p then SelfReference else OwnPromise(q)
    case BadThen(e) => ThenGetterThrows(e)
    case Thenable(s) => ForeignThenable(s)
    case _ => PlainValue
  }

  function ResolvePromise(w: World, p: nat, x: Value, depth: nat): (r: (World, Outcome))
    requires WellFormed(w) && p < |w.store| && ValueOk(x, |w.store|)
    ensures WellFormed(r.0) && |w.store| <= |r.0.store| && |w.latches| <= |r.0.latches|
    ensures r.1 == Done || r.1 == Threw(Error(RangeError))
    decreases depth, 0, 0
  {
    if depth == 0 then (w, Threw(Error(RangeError)))
    else match Classify(p, x)
      case SelfReference =>
        RejectWellFormed(w, p, Error(TypeError));
        (Reject(w, p, Error(TypeError)), Done)
      case OwnPromise(q) =>
        var rec := w.store[q];
        if rec.status == Fulfilled then
          ResolvePromise(w, p, rec.value, depth - 1)
        else if rec.status == Rejected then
          RejectWellFormed(w, p, rec.reason);
          (Reject(w, p, rec.reason), Done)
        else
          ThenWellFormed(w, q, Some(ResolveInto(p)), Some(RejectInto(p)));
          (Then(w, q, Some(ResolveInto(p)), Some(RejectInto(p))).0, Done)
      case ThenGetterThrows(e) =>
        RejectWellFormed(w, p, e);
        (Reject(w, p, e), Done)
      case ForeignThenable(s) =>
        CallForeignThen(w, p, s, depth - 1)
      case PlainValue =>
        ResolveWellFormed(w, p, x);
        (Resolve(w, p, x), Done)
  }

  /**
   * The thenable branch (lines 70-89): a fresh `hasCalled` latch, the call
   * of the foreign `then`, and a rejection with what it threw unless a
   * callback has already run.
   */
  function CallForeignThen(w: World, p: nat, s: seq<Action>, depth: nat): (r: (World, Outcome))
    requires WellFormed(w) && p < |w.store| && ScriptOk(s, |w.store|)
    ensures WellFormed(r.0) && |w.store| <= |r.0.store| && |w.latches| <= |r.0.latches|
    ensures r.1 == Done
    decreases depth, 2, 0
  {
    var l := |w.latches|;
    var w1 := AddLatch(w);
    AddLatchWellFormed(w);
    var (w2, o) := RunThenScript(w1, p, l, s, depth);
    if o.Threw? && !w2.latches[l] then
      RejectWellFormed(w2, p, o.e);
      (Reject(w2, p, o.e), Done)
    else
      (w2, Done)
  }

  /**
   * `then.call(x, resolvePromise-callback, reject-callback)` (lines 71-89):
   * runs the foreign script.  Both callbacks consult and trip the shared
   * latch `l`; an exception stops the script and is returned.
   */
  function RunThenScript(w: World, p: nat, l: nat, s: seq<Action>, depth: nat): (r: (World, Outcome))
    requires WellFormed(w) && p < |w.store| && l < |w.latches| && ScriptOk(s, |w.store|)
    ensures WellFormed(r.0) && |w.store| <= |r.0.store| && |w.latches| <= |r.0.latches|
    ensures OutcomeOk(r.1, |r.0.store|)
    decreases depth, 1, |s|
  {
    if s == [] then (w, Done)
    else
      assert ScriptOk(s[1..], |w.store|);
      match s[0]
      case CallResolve(v) =>
        if w.latches[l] then RunThenScript(w, p, l, s[1..], depth)
        else
          var (w1, o) := ResolvePromise(Trip(w, l), p, v, depth);
          if o.Threw? then (w1, o)
          else
            ScriptOkGrows(s[1..], |w.store|, |w1.store|);
            RunThenScript(w1, p, l, s[1..], depth)
      case CallReject(e) =>
        if w.latches[l] then RunThenScript(w, p, l, s[1..], depth)
        else
          RejectWellFormed(Trip(w, l), p, e);
          RunThenScript(Reject(Trip(w, l), p, e), p, l, s[1..], depth)
      case Throw(e) => (w, Threw(e))
      case Yield =>
        (w.(queue := w.queue + [ForeignCalls(p, l, s[1..])]), Done)
  }

  // ---------------------------------------------------------------------
  // Running microtasks: `processResult` (lines 32-40) and the deferred
  // part of a foreign script.
  // ---------------------------------------------------------------------

  /** Calling a handler with `arg`. */
  function ApplyHandler(w: World, h: Handler, arg: Value, depth: nat): (r: (World, Outcome))
    requires WellFormed(w) && HandlerOk(h, |w.store|) && ValueOk(arg, |w.store|)
    ensures WellFormed(r.0) && |w.store| <= |r.0.store| && |w.latches| <= |r.0.latches|
    ensures OutcomeOk(r.1, |r.0.store|)
  {
    match h
    case Identity => (w, Returned(arg))
    case Rethrow => (w, Threw(arg))
    case Return(v) => (w, Returned(v))
    case Raise(e) => (w, Threw(e))
    case ResolveInto(t) =>
      var (w1, o) := ResolvePromise(w, t, arg, depth);
      (w1, if o.Threw? then o else Returned(Undefined))
    case RejectInto(t) =>
      RejectWellFormed(w, t, arg);
      (Reject(w, t, arg), Returned(Undefined))
  }

  /**
   * `processResult` (lines 32-40) for a continuation of `src` that settles
   * `tgt`: the handler chosen by the status of `src`, then `SettleTarget`
   * with how it ended.
   */
  function ProcessResultOf(w: World, src: nat, tgt: nat, f: Handler, g: Handler, depth: nat): (r: World)
    requires WellFormed(w) && src < |w.store| && tgt < |w.store| && HandlerOk(f, |w.store|) && HandlerOk(g, |w.store|)
    ensures WellFormed(r) && |w.store| <= |r.store| && |w.latches| <= |r.latches|
  {
    var rec := w.store[src];
    var (w1, o) := if rec.status == Fulfilled then ApplyHandler(w, f, rec.value, depth)
                   else ApplyHandler(w, g, rec.reason, depth);
    SettleTarget(w1, tgt, o, depth)
  }

  /**
   * The rest of `processResult` (lines 33-39): `resolvePromise` on what the
   * handler returned, and a rejection of `tgt` with whatever was thrown,
   * by the handler or by `resolvePromise`.
   */
  function SettleTarget(w: World, tgt: nat, o: Outcome, depth: nat): (r: World)
    requires WellFormed(w) && tgt < |w.store| && OutcomeOk(o, |w.store|)
    ensures WellFormed(r) && |w.store| <= |r.store| && |w.latches| <= |r.latches|
  {
    if o.Threw? then
      RejectWellFormed(w, tgt, o.e);
      Reject(w, tgt, o.e)
    else
      var (w2, o2) := ResolvePromise(w, tgt, o.v, depth);
      if o2.Threw? then
        RejectWellFormed(w2, tgt, o2.e);
        Reject(w2, tgt, o2.e)
      else w2
  }

  /** Run the task at the head of the queue, if any. */
  function Step(w: World, depth: nat): (r: World)
    requires WellFormed(w)
    ensures WellFormed(r) && |w.store| <= |r.store| && |w.latches| <= |r.latches|
  {
    if w.queue == [] then w
    else
      var w0 := w.(queue := w.queue[1..]);
      assert WellFormed(w0);
      match w.queue[0]
      case ProcessResult(src, tgt, f, g) => ProcessResultOf(w0, src, tgt, f, g, depth)
      case ForeignCalls(t, l, s) => RunThenScript(w0, t, l, s, depth).0
  }

  /** Run up to `n` tasks. */
  function Run(w: World, n: nat, depth: nat): (r: World)
    requires WellFormed(w)
    ensures WellFormed(r)
    decreases n
  {
    if n == 0 || w.queue == [] then w else Run(Step(w, depth), n - 1, depth)
  }
}
