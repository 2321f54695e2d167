/**
 * Laws about the constructor, the static factories and the timer tasks: an
 * executor that throws rejects, `Promise.resolve`/`Promise.reject` settle at
 * once, missing handlers pass the outcome through (Promises/A+ 2.2.7.3 and
 * 2.2.7.4), a throwing handler rejects the derived promise (2.2.7.2), and
 * reactions run in registration order (2.2.6).
 */
module EngineTasks {
  import opened Values
  import opened Engine
  import opened EngineLaws
  import opened EnginePlain

  /** The promise a successful construction created. */
  ghost predicate CreatedWith(r: Construction, w: World, status: Status, payload: Value)
  {
    && r.Created?
    && r.promise == |w.promises| && |r.world.promises| == |w.promises| + 1
    && r.world.promises[r.promise].status == status
    && (if status == Fulfilled then r.world.promises[r.promise].value == payload
        else status == Rejected ==> r.world.promises[r.promise].reason == payload)
    && r.world.promises[..|w.promises|] == w.promises
    && r.world.tasks == w.tasks
  }

  /** An executor that throws before calling anything rejects the new promise with the error. */
  lemma ExecutorThrowRejects(w: World, e: Value, rest: seq<Call>)
    requires Valid(w) && ScriptClosed([Raise(e)] + rest, |w.promises|)
    ensures CreatedWith(Construct(w, Body([Raise(e)] + rest)), w, Rejected, e)
  {
    assert ([Raise(e)] + rest)[0] == Raise(e);
    var w1 := World(w.promises + [Fresh()], w.tasks);
    assert RecordValid(w1.promises[|w.promises|], |w1.promises|);
    assert Valid(w1);
  }

  /** The executor's calls never undo a settlement (Promises/A+ 2.1). */
  lemma {:induction false} RunExecutorEvolves(w: World, p: PromiseId, script: seq<Call>, k: nat)
    requires k <= |script|
    requires Valid(w) && p < |w.promises| && ScriptClosed(script, |w.promises|)
    ensures Evolves(w, RunExecutor(w, p, script, k))
    decreases |script| - k
  {
    if k == |script| {
      assert Evolves(w, w);
    } else {
      match script[k]
      case ResolveWith(x) =>
        var w1 := ResolvePromise(w, p, x, Raw);
        ResolvePromiseEvolves(w, p, x, Raw);
        RunExecutorEvolves(w1, p, script, k + 1);
        EvolvesTransitive(w, w1, RunExecutor(w1, p, script, k + 1));
      case RejectWith(reason) =>
        var w1 := Reject(w, p, reason);
        RejectEvolves(w, p, reason);
        RunExecutorEvolves(w1, p, script, k + 1);
        EvolvesTransitive(w, w1, RunExecutor(w1, p, script, k + 1));
      case Raise(e) =>
        RejectEvolves(w, p, e);
    }
  }

  /**
   * `resolve(x)` with a plain value fulfils the new promise, and nothing the
   * executor does afterwards, a throw included, changes that.
   */
  lemma ExecutorResolvePlainFulfils(w: World, x: Value, rest: seq<Call>)
    requires Valid(w) && Plain(x) && ScriptClosed([ResolveWith(x)] + rest, |w.promises|)
    ensures var r := Construct(w, Body([ResolveWith(x)] + rest));
      && r.Created?
      && r.world.promises[r.promise].status == Fulfilled
      && r.world.promises[r.promise].value == x
  {
    var script := [ResolveWith(x)] + rest;
    var p := |w.promises|;
    var w1 := World(w.promises + [Fresh()], w.tasks);
    assert RecordValid(w1.promises[p], |w1.promises|);
    assert script[0] == ResolveWith(x);
    PlainFulfils(w1, p, x, Raw);
    RunExecutorEvolves(ResolvePromise(w1, p, x, Raw), p, script, 1);
  }

  /** `Promise.resolve(v)` with a plain value is a new promise already fulfilled with `v`. */
  lemma StaticResolveFulfils(w: World, v: Value)
    requires Valid(w) && Closed(v, |w.promises|) && Plain(v)
    ensures CreatedWith(StaticResolve(w, v), w, Fulfilled, v)
  {
    var p := |w.promises|;
    var script := [ResolveWith(v)];
    var w1 := World(w.promises + [Fresh()], w.tasks);
    assert RecordValid(w1.promises[p], |w1.promises|);
    PlainFulfils(w1, p, v, Raw);
    var w2 := ResolvePromise(w1, p, v, Raw);
    assert RunExecutor(w1, p, script, 0) == RunExecutor(w2, p, script, 1) == w2;
    assert w2.tasks == w.tasks + Drained([], v) == w.tasks;
    assert w2.promises[..p] == w.promises;
  }

  /** `Promise.reject(reason)` is a new promise rejected with `reason` itself, even a promise or a thenable. */
  lemma StaticRejectRejects(w: World, reason: Value)
    requires Valid(w) && Closed(reason, |w.promises|)
    ensures CreatedWith(StaticReject(w, reason), w, Rejected, reason)
  {
    var p := |w.promises|;
    var script := [RejectWith(reason)];
    var w1 := World(w.promises + [Fresh()], w.tasks);
    assert RecordValid(w1.promises[p], |w1.promises|);
    var w2 := Reject(w1, p, reason);
    assert RunExecutor(w1, p, script, 0) == RunExecutor(w2, p, script, 1) == w2;
    assert w2.tasks == w.tasks + Drained([], reason) == w.tasks;
    assert w2.promises[..p] == w.promises;
  }

  /** `Promise.defer()` adds one fresh pending promise and changes nothing else. */
  lemma DeferIsPending(w: World)
    requires Valid(w)
    ensures CreatedWith(Defer(w), w, Pending, Undefined)
    ensures Defer(w).world.promises[|w.promises|] == Fresh()
  {
    var r := Defer(w);
    assert r.world.promises[..|w.promises|] == w.promises;
  }

  // ----- running one timer task -----

  /** The queue after the head task has been taken off. */
  function Rest(w: World): (r: World)
    requires w.tasks != []
    ensures r.promises == w.promises && r.tasks == w.tasks[1..]
  {
    World(w.promises, w.tasks[1..])
  }

  /** Running a task never undoes a settlement; the tasks still queued stay queued, in order. */
  lemma RunTaskEvolves(w: World)
    requires Valid(w) && HeadReady(w)
    ensures Evolves(Rest(w), RunTask(w))
  {
    var rest := Rest(w);
    assert Valid(rest);
    match w.tasks[0]
    case FinallyCallback =>
      assert Evolves(rest, rest);
    case Handle(h, arg, d) =>
      if h.AdoptValue? {
        var w1 := ResolvePromise(rest, h.target, arg, h.cap);
        ResolvePromiseEvolves(rest, h.target, arg, h.cap);
        ResolvePromiseEvolves(w1, d, Undefined, Full);
        EvolvesTransitive(rest, w1, ResolvePromise(w1, d, Undefined, Full));
      } else if h.AdoptReason? {
        var w1 := Reject(rest, h.target, arg);
        RejectEvolves(rest, h.target, arg);
        ResolvePromiseEvolves(w1, d, Undefined, Full);
        EvolvesTransitive(rest, w1, ResolvePromise(w1, d, Undefined, Full));
      } else {
        var w1 := if h.FinallyPassValue? || h.FinallyPassReason? then World(rest.promises, rest.tasks + [FinallyCallback]) else rest;
        assert Evolves(rest, w1) by {
          assert w1.tasks[..|rest.tasks|] == rest.tasks;
        }
        var c := Apply(h, arg);
        if c.Normal? {
          ResolvePromiseEvolves(w1, d, c.result, Full);
          EvolvesTransitive(rest, w1, ResolvePromise(w1, d, c.result, Full));
        } else {
          RejectEvolves(w1, d, c.error);
          EvolvesTransitive(rest, w1, Reject(w1, d, c.error));
        }
      }
  }

  /** The tasks queued once `h` has run: a `finally` handler schedules `fn` first. */
  function QueuedAfter(w: World, h: Handler): (ts: seq<Task>)
    requires w.tasks != []
    ensures Prefix(w.tasks[1..], ts)
    ensures |ts| == |w.tasks| - 1 + (if h.FinallyPassValue? || h.FinallyPassReason? then 1 else 0)
  {
    if h.FinallyPassValue? || h.FinallyPassReason? then w.tasks[1..] + [FinallyCallback] else w.tasks[1..]
  }

  /**
   * Promises/A+ 2.2.7.1 and 2.2.7.2: a handler that throws rejects the derived
   * promise with the error; one that returns a plain value fulfils it with that
   * value. The derived promise's own reactions are queued after the rest.
   */
  lemma HandlerSettlesDerived(w: World)
    requires Valid(w) && HeadReady(w) && w.tasks[0].Handle?
    requires !w.tasks[0].handler.AdoptValue? && !w.tasks[0].handler.AdoptReason?
    requires w.tasks[0].derived < |w.promises| && w.promises[w.tasks[0].derived].status == Pending
    ensures var h, arg, d := w.tasks[0].handler, w.tasks[0].arg, w.tasks[0].derived;
      var r := RunTask(w);
      && (Apply(h, arg).Thrown? ==>
            && r.promises[d].status == Rejected && r.promises[d].reason == Apply(h, arg).error
            && r.tasks == QueuedAfter(w, h) + Drained(w.promises[d].onRejectedCallbacks, Apply(h, arg).error))
      && (Apply(h, arg).Normal? && Plain(Apply(h, arg).result) ==>
            && r.promises[d].status == Fulfilled && r.promises[d].value == Apply(h, arg).result
            && r.tasks == QueuedAfter(w, h) + Drained(w.promises[d].onFulfilledCallbacks, Apply(h, arg).result))
  {
    var h, arg, d := w.tasks[0].handler, w.tasks[0].arg, w.tasks[0].derived;
    var w1 := World(w.promises, QueuedAfter(w, h));
    assert Valid(w1);
    var c := Apply(h, arg);
    if c.Normal? && Plain(c.result) {
      PlainFulfils(w1, d, c.result, Full);
    }
  }

  /**
   * Promises/A+ 2.2.7.3 and 2.2.7.4: when `then` was given no function, the
   * derived promise takes the source's outcome unchanged; so does `finally`,
   * which also queues `fn`.
   */
  lemma PassThrough(w: World)
    requires Valid(w) && w.tasks != [] && w.tasks[0].Handle?
    requires w.tasks[0].handler in {Identity, Rethrow, FinallyPassValue, FinallyPassReason}
    requires w.tasks[0].derived < |w.promises| && w.promises[w.tasks[0].derived].status == Pending
    requires PlainFulfilments(w)
    ensures var h, arg, d := w.tasks[0].handler, w.tasks[0].arg, w.tasks[0].derived;
      var r := RunTask(w);
      && ((h == Identity || h == FinallyPassValue) ==>
            r.promises[d].status == Fulfilled && r.promises[d].value == arg)
      && ((h == Rethrow || h == FinallyPassReason) ==>
            r.promises[d].status == Rejected && r.promises[d].reason == arg)
      && (h == FinallyPassValue || h == FinallyPassReason ==> Prefix(w.tasks[1..] + [FinallyCallback], r.tasks))
  {
    HandlerSettlesDerived(w);
    assert TaskPlain(w.tasks[0]);
    var h, arg, d := w.tasks[0].handler, w.tasks[0].arg, w.tasks[0].derived;
    var w1 := World(w.promises, QueuedAfter(w, h));
    assert Valid(w1);
    if h == FinallyPassValue {
      ResolvePromiseEvolves(w1, d, arg, Full);
    } else if h == FinallyPassReason {
      RejectEvolves(w1, d, arg);
    }
  }

  /**
   * Promises/A+ 2.3.2.2 and 2.3.2.3: when the adopted promise settles, the
   * adopting promise takes its reason or its value; the value of a fulfilled
   * promise is always plain (`PlainFulfilments`).
   */
  lemma AdoptionSettlesTarget(w: World)
    requires Valid(w) && w.tasks != [] && w.tasks[0].Handle?
    requires w.tasks[0].handler.AdoptValue? || w.tasks[0].handler.AdoptReason?
    requires w.tasks[0].handler.target < |w.promises| && w.promises[w.tasks[0].handler.target].status == Pending
    requires PlainFulfilments(w)
    ensures var h, arg := w.tasks[0].handler, w.tasks[0].arg;
      var r := RunTask(w);
      && (h.AdoptReason? ==> r.promises[h.target].status == Rejected && r.promises[h.target].reason == arg)
      && (h.AdoptValue? ==> r.promises[h.target].status == Fulfilled && r.promises[h.target].value == arg)
  {
    var h, arg, d := w.tasks[0].handler, w.tasks[0].arg, w.tasks[0].derived;
    var rest := Rest(w);
    assert Valid(rest);
    var w1 := if h.AdoptValue? then ResolvePromise(rest, h.target, arg, h.cap) else Reject(rest, h.target, arg);
    assert TaskPlain(w.tasks[0]);
    if h.AdoptValue? {
      PlainFulfils(rest, h.target, arg, h.cap);
    }
    ResolvePromiseEvolves(w1, d, Undefined, Full);
  }

  // ----- ordering of reactions -----

  lemma {:induction false} DrainedAppend(a: seq<Reaction>, b: seq<Reaction>, v: Value)
    ensures Drained(a + b, v) == Drained(a, v) + Drained(b, v)
  {
    if a == [] {
      assert a + b == b;
    } else {
      assert (a + b)[1..] == a[1..] + b;
      DrainedAppend(a[1..], b, v);
    }
  }

  /** Draining one more callback queues one more task, at the end. */
  lemma DrainedSnoc(a: seq<Reaction>, c: Reaction, v: Value)
    ensures Drained(a + [c], v) == Drained(a, v) + [Handle(c.handler, v, c.derived)]
  {
    DrainedAppend(a, [c], v);
  }

  /**
   * Promises/A+ 2.2.6: handlers registered with `then` on a pending promise are
   * scheduled, when it settles, in the order of the `then` calls, after those
   * registered before them.
   */
  lemma ThenOrder(w: World, p: PromiseId, f1: Handler, r1: Handler, f2: Handler, r2: Handler, v: Value)
    requires p < |w.promises| && w.promises[p].status == Pending
    ensures var first := Then(w, p, f1, r1);
      var second := Then(first.0, p, f2, r2);
      && Fulfil(second.0, p, v).tasks
           == w.tasks + Drained(w.promises[p].onFulfilledCallbacks, v) + [Handle(f1, v, first.1), Handle(f2, v, second.1)]
      && Reject(second.0, p, v).tasks
           == w.tasks + Drained(w.promises[p].onRejectedCallbacks, v) + [Handle(r1, v, first.1), Handle(r2, v, second.1)]
  {
    var first := Then(w, p, f1, r1);
    var second := Then(first.0, p, f2, r2);
    ThenTwice(w, p, f1, r1, f2, r2);
    var added, addedR := [Reaction(f1, first.1), Reaction(f2, second.1)], [Reaction(r1, first.1), Reaction(r2, second.1)];
    DrainedAppend(w.promises[p].onFulfilledCallbacks, added, v);
    DrainedAppend(w.promises[p].onRejectedCallbacks, addedR, v);
  }

  /** Two `then` calls on a pending promise append one reaction to each list, in call order, and schedule nothing. */
  lemma ThenTwice(w: World, p: PromiseId, f1: Handler, r1: Handler, f2: Handler, r2: Handler)
    requires p < |w.promises| && w.promises[p].status == Pending
    ensures var first := Then(w, p, f1, r1);
      var second := Then(first.0, p, f2, r2);
      && second.0.tasks == w.tasks && second.0.promises[p].status == Pending
      && second.0.promises[p].onFulfilledCallbacks
           == w.promises[p].onFulfilledCallbacks + [Reaction(f1, first.1), Reaction(f2, second.1)]
      && second.0.promises[p].onRejectedCallbacks
           == w.promises[p].onRejectedCallbacks + [Reaction(r1, first.1), Reaction(r2, second.1)]
  {
  }

}
