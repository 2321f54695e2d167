/**
 * The Promises/A+ engine of src/es6/index.js (and its near copies src/es5/index.js
 * and src/typescript/index.ts) as functions over an explicit heap.
 *
 * A `World` holds one record per promise instance (the fields `status`, `value`,
 * `reason`, `onFulfilledCallbacks`, `onRejectedCallbacks`) and the FIFO queue of
 * timer tasks that stands in for `setTimeout`. The closures the source pushes onto
 * the callback arrays and hands to `setTimeout` are represented by data:
 * a `Reaction` is `() => handle(fn, this.value)`, a `Task` is the timer callback
 * created by `handle`.
 */
module Engine {
  import opened Values

  datatype Status = Pending | Fulfilled | Rejected

  /**
   * The settle-fulfilled capability handed to the resolution procedure:
   * `Raw` is the constructor's inner `__resolve` (sets the state directly),
   * `Full` is the constructor's `resolve` (runs the resolution procedure again
   * with `__resolve`).
   */
  datatype Capability = Raw | Full

  /** The functions `handle` can run. */
  datatype Handler =
    | User(f: Value -> Completion)              // a function passed to `then`
    | Identity                                  // `value => value`
    | Rethrow                                   // `error => { throw error }`
    | FinallyPassValue                          // `value => { setTimeout(fn); return value }`
    | FinallyPassReason                         // `reason => { setTimeout(fn); throw reason }`
    | AdoptValue(target: PromiseId, cap: Capability)  // `value => resolvePromise(target, value, ...)`
    | AdoptReason(target: PromiseId)            // `reason => reject(reason)` of `target`

  /** An argument of `then`: a function, or anything else (`typeof` is not 'function'). */
  datatype HandlerArg = Function(f: Value -> Completion) | NotAFunction

  /** `() => handle(handler, this.value)` (or `this.reason`), settling `derived`. */
  datatype Reaction = Reaction(handler: Handler, derived: PromiseId)

  /** A pending timer callback. */
  datatype Task =
    | Handle(handler: Handler, arg: Value, derived: PromiseId)
    | FinallyCallback                           // the `fn` that `finally` schedules

  datatype PromiseRecord = PromiseRecord(
    status: Status,
    value: Value,
    reason: Value,
    onFulfilledCallbacks: seq<Reaction>,
    onRejectedCallbacks: seq<Reaction>)

  datatype World = World(promises: seq<PromiseRecord>, tasks: seq<Task>)

  /** What the `new Promise(executor)` caller passes as `executor`. */
  datatype Executor = NotAFunctionExecutor | Body(script: seq<Call>)

  /** The outcome of `new Promise(executor)`: a new promise, or a synchronous throw. */
  datatype Construction = Created(world: World, promise: PromiseId) | Throws(error: Value)

  /** The fields a fresh promise is initialised with. */
  function Fresh(): PromiseRecord
  {
    PromiseRecord(Pending, Undefined, Undefined, [], [])
  }

  // ----- well-formedness: every id the heap mentions is a live promise -----

  ghost predicate HandlerValid(h: Handler, n: nat)
  {
    match h
    case AdoptValue(t, _) => t < n
    case AdoptReason(t) => t < n
    case _ => true
  }

  ghost predicate ReactionValid(rc: Reaction, n: nat)
  {
    HandlerValid(rc.handler, n) && rc.derived < n
  }

  ghost predicate TaskValid(t: Task, n: nat)
  {
    t.Handle? ==> HandlerValid(t.handler, n) && Closed(t.arg, n) && t.derived < n
  }

  ghost predicate RecordValid(r: PromiseRecord, n: nat)
  {
    && Closed(r.value, n)
    && Closed(r.reason, n)
    && (forall k :: 0 <= k < |r.onFulfilledCallbacks| ==> ReactionValid(r.onFulfilledCallbacks[k], n))
    && (forall k :: 0 <= k < |r.onRejectedCallbacks| ==> ReactionValid(r.onRejectedCallbacks[k], n))
  }

  ghost predicate Valid(w: World)
  {
    && (forall i :: 0 <= i < |w.promises| ==> RecordValid(w.promises[i], |w.promises|))
    && (forall k :: 0 <= k < |w.tasks| ==> TaskValid(w.tasks[k], |w.promises|))
  }

  // ----- settlement: `reject` and `__resolve` -----

  /** The timer tasks that running the drained callbacks schedules, one per callback, in push order. */
  function Drained(callbacks: seq<Reaction>, arg: Value): (ts: seq<Task>)
    ensures |ts| == |callbacks|
    ensures forall k :: 0 <= k < |ts| ==>
      ts[k].Handle? && ts[k].handler == callbacks[k].handler && ts[k].arg == arg && ts[k].derived == callbacks[k].derived
  {
    if callbacks == [] then [] else [Handle(callbacks[0].handler, arg, callbacks[0].derived)] + Drained(callbacks[1..], arg)
  }

  /** The constructor's `reject`: effective only while the promise is pending. */
  function Reject(w: World, p: PromiseId, reason: Value): (r: World)
    requires p < |w.promises|
    ensures w.promises[p].status != Pending ==> r == w
    ensures w.promises[p].status == Pending ==>
      && |r.promises| == |w.promises|
      && r.promises[p].status == Rejected
      && r.promises[p].reason == reason
      && r.promises[p].value == w.promises[p].value
      && r.promises[p].onFulfilledCallbacks == w.promises[p].onFulfilledCallbacks
      && r.promises[p].onRejectedCallbacks == w.promises[p].onRejectedCallbacks
      && (forall i :: 0 <= i < |w.promises| && i != p ==> r.promises[i] == w.promises[i])
      && r.tasks == w.tasks + Drained(w.promises[p].onRejectedCallbacks, reason)
    ensures Valid(w) && Closed(reason, |w.promises|) ==> Valid(r)
  {
    var rec := w.promises[p];
    if rec.status != Pending then w
    else
      var r := World(w.promises[p := rec.(status := Rejected, reason := reason)],
                     w.tasks + Drained(rec.onRejectedCallbacks, reason));
      assert Valid(w) && Closed(reason, |w.promises|) ==> RecordValid(r.promises[p], |w.promises|);
      r
  }

  /** The constructor's `__resolve`: effective only while the promise is pending. */
  function Fulfil(w: World, p: PromiseId, value: Value): (r: World)
    requires p < |w.promises|
    ensures w.promises[p].status != Pending ==> r == w
    ensures w.promises[p].status == Pending ==>
      && |r.promises| == |w.promises|
      && r.promises[p].status == Fulfilled
      && r.promises[p].value == value
      && r.promises[p].reason == w.promises[p].reason
      && r.promises[p].onFulfilledCallbacks == w.promises[p].onFulfilledCallbacks
      && r.promises[p].onRejectedCallbacks == w.promises[p].onRejectedCallbacks
      && (forall i :: 0 <= i < |w.promises| && i != p ==> r.promises[i] == w.promises[i])
      && r.tasks == w.tasks + Drained(w.promises[p].onFulfilledCallbacks, value)
    ensures Valid(w) && Closed(value, |w.promises|) ==> Valid(r)
  {
    var rec := w.promises[p];
    if rec.status != Pending then w
    else
      var r := World(w.promises[p := rec.(status := Fulfilled, value := value)],
                     w.tasks + Drained(rec.onFulfilledCallbacks, value));
      assert Valid(w) && Closed(value, |w.promises|) ==> RecordValid(r.promises[p], |w.promises|);
      r
  }

  // ----- `then`, `catch`, `finally` -----

  /** `onFulfilled` after `then` has replaced a non-function by the identity. */
  function OnFulfilledOf(a: HandlerArg): Handler
  {
    if a.Function? then User(a.f) else Identity
  }

  /** `onRejected` after `then` has replaced a non-function by a rethrow. */
  function OnRejectedOf(a: HandlerArg): Handler
  {
    if a.Function? then User(a.f) else Rethrow
  }

  /** Calling a handler that does not touch the heap. */
  function Apply(h: Handler, arg: Value): (c: Completion)
    requires !h.AdoptValue? && !h.AdoptReason?
    ensures h.Identity? || h.FinallyPassValue? ==> c == Normal(arg)
    ensures h.Rethrow? || h.FinallyPassReason? ==> c == Thrown(arg)
  {
    match h
    case User(f) => f(arg)
    case Identity => Normal(arg)
    case Rethrow => Thrown(arg)
    case FinallyPassValue => Normal(arg)
    case FinallyPassReason => Thrown(arg)
  }

  /**
   * `p.then(onFulfilled, onRejected)` with the handlers already normalised: a new
   * pending promise is created; a settled `p` schedules one task, a pending `p`
   * gets one reaction on each callback array. No handler runs.
   */
  function Then(w: World, p: PromiseId, onFulfilled: Handler, onRejected: Handler): (r: (World, PromiseId))
    requires p < |w.promises|
    ensures r.1 == |w.promises| && |r.0.promises| == |w.promises| + 1
    ensures r.0.promises[r.1] == Fresh()
    ensures forall i :: 0 <= i < |w.promises| && i != p ==> r.0.promises[i] == w.promises[i]
    ensures r.0.promises[p].status == w.promises[p].status
    ensures r.0.promises[p].value == w.promises[p].value
    ensures r.0.promises[p].reason == w.promises[p].reason
    ensures w.promises[p].status == Fulfilled ==>
      r.0.promises[p] == w.promises[p] && r.0.tasks == w.tasks + [Handle(onFulfilled, w.promises[p].value, r.1)]
    ensures w.promises[p].status == Rejected ==>
      r.0.promises[p] == w.promises[p] && r.0.tasks == w.tasks + [Handle(onRejected, w.promises[p].reason, r.1)]
    ensures w.promises[p].status == Pending ==>
      && r.0.tasks == w.tasks
      && r.0.promises[p].onFulfilledCallbacks == w.promises[p].onFulfilledCallbacks + [Reaction(onFulfilled, r.1)]
      && r.0.promises[p].onRejectedCallbacks == w.promises[p].onRejectedCallbacks + [Reaction(onRejected, r.1)]
    ensures Valid(w) && HandlerValid(onFulfilled, |w.promises|) && HandlerValid(onRejected, |w.promises|) ==> Valid(r.0)
  {
    var d := |w.promises|;
    var ps := w.promises + [Fresh()];
    var rec := w.promises[p];
    match rec.status
    case Fulfilled => (World(ps, w.tasks + [Handle(onFulfilled, rec.value, d)]), d)
    case Rejected => (World(ps, w.tasks + [Handle(onRejected, rec.reason, d)]), d)
    case Pending =>
      var rec' := rec.(onFulfilledCallbacks := rec.onFulfilledCallbacks + [Reaction(onFulfilled, d)],
                       onRejectedCallbacks := rec.onRejectedCallbacks + [Reaction(onRejected, d)]);
      (World(ps[p := rec'], w.tasks), d)
  }

  /**
   * `p.then(onFulfilled, onRejected)` as the caller writes it: a non-function
   * `onFulfilled` becomes the identity and a non-function `onRejected` the
   * rethrow, and `then` registers those.
   */
  function ThenWith(w: World, p: PromiseId, onFulfilled: HandlerArg, onRejected: HandlerArg): (r: (World, PromiseId))
    requires p < |w.promises|
    ensures r.1 == |w.promises| && |r.0.promises| == |w.promises| + 1 && r.0.promises[r.1] == Fresh()
    ensures r.0.promises[p].status == w.promises[p].status
    ensures var f := if onFulfilled.Function? then User(onFulfilled.f) else Identity;
      var g := if onRejected.Function? then User(onRejected.f) else Rethrow;
      && (w.promises[p].status == Fulfilled ==> r.0.tasks == w.tasks + [Handle(f, w.promises[p].value, r.1)])
      && (w.promises[p].status == Rejected ==> r.0.tasks == w.tasks + [Handle(g, w.promises[p].reason, r.1)])
      && (w.promises[p].status == Pending ==>
            && r.0.tasks == w.tasks
            && r.0.promises[p].onFulfilledCallbacks == w.promises[p].onFulfilledCallbacks + [Reaction(f, r.1)]
            && r.0.promises[p].onRejectedCallbacks == w.promises[p].onRejectedCallbacks + [Reaction(g, r.1)])
  {
    Then(w, p, OnFulfilledOf(onFulfilled), OnRejectedOf(onRejected))
  }

  /** `p.catch(onRejected)`, which is `p.then(null, onRejected)`. */
  function Catch(w: World, p: PromiseId, onRejected: HandlerArg): (r: (World, PromiseId))
    requires p < |w.promises|
    ensures r == ThenWith(w, p, NotAFunction, onRejected)
  {
    Then(w, p, Identity, OnRejectedOf(onRejected))
  }

  /** `p.finally(fn)`: both handlers schedule `fn` and pass the outcome on unchanged. */
  function Finally(w: World, p: PromiseId): (r: (World, PromiseId))
    requires p < |w.promises|
    ensures r.1 == |w.promises| && |r.0.promises| == |w.promises| + 1 && r.0.promises[r.1] == Fresh()
    ensures r.0.promises[p].status == w.promises[p].status
    ensures w.promises[p].status == Fulfilled ==>
      r.0.tasks == w.tasks + [Handle(FinallyPassValue, w.promises[p].value, r.1)]
    ensures w.promises[p].status == Rejected ==>
      r.0.tasks == w.tasks + [Handle(FinallyPassReason, w.promises[p].reason, r.1)]
    ensures w.promises[p].status == Pending ==>
      && r.0.tasks == w.tasks
      && r.0.promises[p].onFulfilledCallbacks == w.promises[p].onFulfilledCallbacks + [Reaction(FinallyPassValue, r.1)]
      && r.0.promises[p].onRejectedCallbacks == w.promises[p].onRejectedCallbacks + [Reaction(FinallyPassReason, r.1)]
  {
    Then(w, p, FinallyPassValue, FinallyPassReason)
  }

  // ----- the resolution procedure `Promise.resolvePromise` -----

  /**
   * `resolvePromise(target, x, resolve, reject)`, where `resolve` is the capability
   * `cap` of `target` and `reject` is the constructor's `reject` of `target`.
   */
  function ResolvePromise(w: World, target: PromiseId, x: Value, cap: Capability): (r: World)
    requires Valid(w) && target < |w.promises| && Closed(x, |w.promises|)
    ensures Valid(r) && |r.promises| >= |w.promises|
    decreases x, if cap == Full then 4 else 3
  {
    if x == Ref(target) then
      Reject(w, target, TypeError(ChainingCycle))
    else if x.Ref? then
      assert x.id in Refs(x);
      Then(w, x.id, AdoptValue(target, cap), AdoptReason(target)).0
    else if IsObjectOrFunction(x) then
      match ReadThen(x)
      case ThrowsOnRead(e) =>
        assert Refs(e) == Refs(x);
        Reject(w, target, e)
      case NotCallable => SettleWith(w, target, x, cap)
      case Callable(script) => RunThen(w, target, cap, x, 0, false)
    else
      SettleWith(w, target, x, cap)
  }

  /** `resolve(x)` for a value that is settled on directly. */
  function SettleWith(w: World, target: PromiseId, x: Value, cap: Capability): (r: World)
    requires Valid(w) && target < |w.promises| && Closed(x, |w.promises|)
    ensures Valid(r) && |r.promises| >= |w.promises|
    decreases x, if cap == Full then 4 else 3, 1
  {
    if cap == Raw then Fulfil(w, target, x) else ResolvePromise(w, target, x, Raw)
  }

  /**
   * The calls the thenable's `then` makes from step `k` on, with the one-shot
   * guard `called`: only the first resolve callback, reject callback or throw
   * takes effect.
   */
  function RunThen(w: World, target: PromiseId, cap: Capability, thenable: Value, k: nat, called: bool): (r: World)
    requires thenable.Obj? && thenable.thenSlot.Callable? && k <= |thenable.thenSlot.script|
    requires Valid(w) && target < |w.promises| && Closed(thenable, |w.promises|)
    ensures Valid(r) && |r.promises| >= |w.promises|
    decreases thenable, 2, |thenable.thenSlot.script| - k
  {
    var script := thenable.thenSlot.script;
    if k == |script| then w
    else
      assert Refs(script[k].arg) <= Refs(thenable);
      match script[k]
      case ResolveWith(y) =>
        if called then RunThen(w, target, cap, thenable, k + 1, true)
        else RunThen(ResolvePromise(w, target, y, cap), target, cap, thenable, k + 1, true)
      case RejectWith(reason) =>
        if called then RunThen(w, target, cap, thenable, k + 1, true)
        else RunThen(Reject(w, target, reason), target, cap, thenable, k + 1, true)
      case Raise(e) =>
        if called then w else Reject(w, target, e)
  }

  // ----- the constructor and the static factories -----

  /**
   * The executor's calls from step `k` on: `resolve(x)` is the constructor's
   * `resolve`, that is the resolution procedure run with `__resolve` (`Raw`);
   * `reject` is the constructor's `reject`. Neither is guarded beyond the pending
   * check, and a throw is caught and turned into `reject(error)`.
   */
  function RunExecutor(w: World, p: PromiseId, script: seq<Call>, k: nat): (r: World)
    requires k <= |script|
    requires Valid(w) && p < |w.promises| && ScriptClosed(script, |w.promises|)
    ensures Valid(r) && |r.promises| >= |w.promises|
    decreases |script| - k
  {
    if k == |script| then w
    else
      match script[k]
      case ResolveWith(x) => RunExecutor(ResolvePromise(w, p, x, Raw), p, script, k + 1)
      case RejectWith(reason) => RunExecutor(Reject(w, p, reason), p, script, k + 1)
      case Raise(e) => Reject(w, p, e)
  }

  /** `new Promise(executor)`. */
  function Construct(w: World, executor: Executor): (r: Construction)
    requires Valid(w) && (executor.Body? ==> ScriptClosed(executor.script, |w.promises|))
    ensures r.Throws? <==> executor.NotAFunctionExecutor?
    ensures r.Throws? ==> r.error == TypeError(ResolverNotAFunction)
    ensures r.Created? ==> r.promise == |w.promises| < |r.world.promises| && Valid(r.world)
  {
    match executor
    case NotAFunctionExecutor => Throws(TypeError(ResolverNotAFunction))
    case Body(script) =>
      var w1 := World(w.promises + [Fresh()], w.tasks);
      assert RecordValid(w1.promises[|w.promises|], |w1.promises|);
      Created(RunExecutor(w1, |w.promises|, script, 0), |w.promises|)
  }

  /** `Promise.resolve(value)`: it never throws, and its promise is the next identity. */
  function StaticResolve(w: World, value: Value): (r: Construction)
    requires Valid(w) && Closed(value, |w.promises|)
    ensures r.Created? && r.promise == |w.promises| < |r.world.promises| && Valid(r.world)
  {
    Construct(w, Body([ResolveWith(value)]))
  }

  /** `Promise.reject(reason)`: it never throws, and its promise is the next identity, rejected with `reason`. */
  function StaticReject(w: World, reason: Value): (r: Construction)
    requires Valid(w) && Closed(reason, |w.promises|)
    ensures r.Created? && r.promise == |w.promises| && |r.world.promises| == |w.promises| + 1 && Valid(r.world)
    ensures r.world.promises[r.promise].status == Rejected && r.world.promises[r.promise].reason == reason
  {
    var w1 := World(w.promises + [Fresh()], w.tasks);
    assert RunExecutor(w1, |w.promises|, [RejectWith(reason)], 0)
        == RunExecutor(Reject(w1, |w.promises|, reason), |w.promises|, [RejectWith(reason)], 1);
    Construct(w, Body([RejectWith(reason)]))
  }

  /**
   * `Promise.defer()` (also `Promise.deferred`): a pending promise whose `resolve`
   * and `reject` are handed out; calling them later is `ResolvePromise(_, p, x, Raw)`
   * and `Reject(_, p, reason)`.
   */
  function Defer(w: World): (r: Construction)
    requires Valid(w)
    ensures r.Created? && r.promise == |w.promises| && Valid(r.world)
    ensures r.world.promises == w.promises + [Fresh()] && r.world.tasks == w.tasks
  {
    Construct(w, Body([]))
  }

  // ----- the timer queue -----

  /** User code is trusted to return only values that exist in the heap. */
  ghost predicate HeadReady(w: World)
  {
    && w.tasks != []
    && (w.tasks[0].Handle? && w.tasks[0].handler.User? ==>
          CompletionClosed(w.tasks[0].handler.f(w.tasks[0].arg), |w.promises|))
  }

  /**
   * Runs the oldest timer task: the callback `handle` passed to `setTimeout`, or
   * the `fn` of a `finally`. A handler's result resolves the derived promise
   * through the resolution procedure; a throw rejects it.
   */
  function RunTask(w: World): (r: World)
    requires Valid(w) && HeadReady(w)
    ensures Valid(r) && |r.promises| >= |w.promises|
  {
    var rest := World(w.promises, w.tasks[1..]);
    match w.tasks[0]
    case FinallyCallback => rest
    case Handle(h, arg, d) =>
      if h.AdoptValue? then
        var w1 := ResolvePromise(rest, h.target, arg, h.cap);
        ResolvePromise(w1, d, Undefined, Full)
      else if h.AdoptReason? then
        var w1 := Reject(rest, h.target, arg);
        ResolvePromise(w1, d, Undefined, Full)
      else
        var w1 := if h.FinallyPassValue? || h.FinallyPassReason? then World(rest.promises, rest.tasks + [FinallyCallback]) else rest;
        var c := Apply(h, arg);
        if c.Normal? then ResolvePromise(w1, d, c.result, Full) else Reject(w1, d, c.error)
  }
}
