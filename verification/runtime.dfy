/**
 * The promise heap as the JavaScript code manipulates it: each promise's fields
 * are assigned in place and its callback arrays are pushed to; `setTimeout`
 * appends to the timer queue. Every method is proved to leave the heap exactly
 * as the corresponding function of module Engine describes, so the laws proved
 * there hold of this code.
 */
module PromiseRuntime {
  import opened Values
  import opened Engine
  import EngineTasks

  class Runtime {
    /** Every promise instance created so far, by identity. */
    var promises: seq<PromiseRecord>
    /** Callbacks handed to `setTimeout`, oldest first. */
    var tasks: seq<Task>

    function State(): World
      reads this
    {
      World(promises, tasks)
    }

    constructor ()
      ensures State() == World([], [])
    {
      promises := [];
      tasks := [];
    }

    /** `callbacks.forEach(cb => cb())`: each stored callback calls `handle`, which queues one task. */
    method Drain(callbacks: seq<Reaction>, arg: Value)
      modifies this
      ensures promises == old(promises) && tasks == old(tasks) + Drained(callbacks, arg)
    {
      var i := 0;
      while i < |callbacks|
        invariant 0 <= i <= |callbacks|
        invariant promises == old(promises) && tasks == old(tasks) + Drained(callbacks[..i], arg)
      {
        assert callbacks[..i + 1] == callbacks[..i] + [callbacks[i]];
        EngineTasks.DrainedSnoc(callbacks[..i], callbacks[i], arg);
        tasks := tasks + [Handle(callbacks[i].handler, arg, callbacks[i].derived)];
        i := i + 1;
      }
      assert callbacks[..i] == callbacks;
    }

    /** The constructor's `reject`. */
    method Reject(p: PromiseId, reason: Value)
      requires p < |promises|
      modifies this
      ensures State() == Engine.Reject(old(State()), p, reason)
    {
      if promises[p].status == Pending {
        var rec := promises[p];
        promises := promises[p := rec.(status := Rejected, reason := reason)];
        Drain(rec.onRejectedCallbacks, reason);
      }
    }

    /** The constructor's inner `__resolve`. */
    method Fulfil(p: PromiseId, value: Value)
      requires p < |promises|
      modifies this
      ensures State() == Engine.Fulfil(old(State()), p, value)
    {
      if promises[p].status == Pending {
        var rec := promises[p];
        promises := promises[p := rec.(status := Fulfilled, value := value)];
        Drain(rec.onFulfilledCallbacks, value);
      }
    }

    /** `p.then(onFulfilled, onRejected)` once the handlers are normalised; returns the derived promise. */
    method Then(p: PromiseId, onFulfilled: Handler, onRejected: Handler) returns (d: PromiseId)
      requires p < |promises|
      modifies this
      ensures (State(), d) == Engine.Then(old(State()), p, onFulfilled, onRejected)
    {
      d := |promises|;
      promises := promises + [Fresh()];
      var rec := promises[p];
      if rec.status == Fulfilled {
        tasks := tasks + [Handle(onFulfilled, rec.value, d)];
      }
      if rec.status == Rejected {
        tasks := tasks + [Handle(onRejected, rec.reason, d)];
      }
      if rec.status == Pending {
        promises := promises[p := rec.(onFulfilledCallbacks := rec.onFulfilledCallbacks + [Reaction(onFulfilled, d)],
                                       onRejectedCallbacks := rec.onRejectedCallbacks + [Reaction(onRejected, d)])];
      }
    }

    /** `Promise.resolvePromise(target, x, resolve, reject)`, where `resolve` is the capability `cap` of `target`. */
    method ResolvePromise(target: PromiseId, x: Value, cap: Capability)
      requires Valid(State()) && target < |promises| && Closed(x, |promises|)
      modifies this
      ensures State() == Engine.ResolvePromise(old(State()), target, x, cap)
      decreases x, if cap == Full then 4 else 3
    {
      if x == Ref(target) {
        Reject(target, TypeError(ChainingCycle));
      } else if x.Ref? {
        assert x.id in Refs(x);
        var adopting := Then(x.id, AdoptValue(target, cap), AdoptReason(target));
      } else if IsObjectOrFunction(x) {
        match ReadThen(x)
        case ThrowsOnRead(e) =>
          assert Refs(e) == Refs(x);
          Reject(target, e);
        case NotCallable =>
          if cap == Raw { Fulfil(target, x); } else { ResolvePromise(target, x, Raw); }
        case Callable(script) =>
          CallThen(target, cap, x);
      } else {
        if cap == Raw { Fulfil(target, x); } else { ResolvePromise(target, x, Raw); }
      }
    }

    /**
     * `then.call(x, resolvePromise, rejectPromise)` inside the `try`: the first
     * call of either callback, or a throw, takes effect; `called` silences the rest.
     */
    method CallThen(target: PromiseId, cap: Capability, thenable: Value)
      requires thenable.Obj? && thenable.thenSlot.Callable?
      requires Valid(State()) && target < |promises| && Closed(thenable, |promises|)
      modifies this
      ensures State() == Engine.RunThen(old(State()), target, cap, thenable, 0, false)
      decreases thenable, 2
    {
      var script := thenable.thenSlot.script;
      var called := false;
      var k := 0;
      while k < |script|
        invariant 0 <= k <= |script|
        invariant Valid(State()) && target < |promises| && Closed(thenable, |promises|)
        invariant Engine.RunThen(State(), target, cap, thenable, k, called)
               == Engine.RunThen(old(State()), target, cap, thenable, 0, false)
        decreases |script| - k
      {
        assert Refs(script[k].arg) <= Refs(thenable);
        match script[k] {
          case ResolveWith(y) =>
            if !called {
              called := true;
              ResolvePromise(target, y, cap);
            }
          case RejectWith(reason) =>
            if !called {
              called := true;
              Reject(target, reason);
            }
          case Raise(e) =>
            if !called {
              Reject(target, e);
            }
            return;
        }
        k := k + 1;
      }
    }

    /** `p.then(onFulfilled, onRejected)` as the caller writes it. */
    method ThenWith(p: PromiseId, onFulfilled: HandlerArg, onRejected: HandlerArg) returns (d: PromiseId)
      requires p < |promises|
      modifies this
      ensures (State(), d) == Engine.ThenWith(old(State()), p, onFulfilled, onRejected)
    {
      d := Then(p, OnFulfilledOf(onFulfilled), OnRejectedOf(onRejected));
    }

    /** `p.catch(onRejected)`. */
    method Catch(p: PromiseId, onRejected: HandlerArg) returns (d: PromiseId)
      requires p < |promises|
      modifies this
      ensures (State(), d) == Engine.Catch(old(State()), p, onRejected)
    {
      d := ThenWith(p, NotAFunction, onRejected);
    }

    /** `p.finally(fn)`. */
    method Finally(p: PromiseId) returns (d: PromiseId)
      requires p < |promises|
      modifies this
      ensures (State(), d) == Engine.Finally(old(State()), p)
    {
      d := Then(p, FinallyPassValue, FinallyPassReason);
    }

    /**
     * `new Promise(executor)`: a non-function executor throws before anything is
     * allocated; otherwise the fields are initialised and the executor runs, a
     * throw from it being caught and turned into `reject(error)`.
     */
    method Construct(executor: Executor) returns (r: NewPromise)
      requires Valid(State()) && (executor.Body? ==> ScriptClosed(executor.script, |promises|))
      modifies this
      ensures var c := Engine.Construct(old(State()), executor);
        if c.Throws? then r == Threw(c.error) && State() == old(State())
        else r == Made(c.promise) && State() == c.world
    {
      if executor.NotAFunctionExecutor? {
        return Threw(TypeError(ResolverNotAFunction));
      }
      var p := |promises|;
      promises := promises + [Fresh()];
      assert RecordValid(promises[p], |promises|);
      var script := executor.script;
      var k := 0;
      while k < |script|
        invariant 0 <= k <= |script| && p < |promises|
        invariant Valid(State()) && ScriptClosed(script, |promises|)
        invariant Engine.RunExecutor(State(), p, script, k)
               == Engine.RunExecutor(World(old(promises) + [Fresh()], old(tasks)), p, script, 0)
        decreases |script| - k
      {
        match script[k] {
          case ResolveWith(x) =>
            ResolvePromise(p, x, Raw);
          case RejectWith(reason) =>
            Reject(p, reason);
          case Raise(e) =>
            Reject(p, e);
            return Made(p);
        }
        k := k + 1;
      }
      r := Made(p);
    }

    /** `Promise.resolve(value)`. */
    method StaticResolve(value: Value) returns (p: PromiseId)
      requires Valid(State()) && Closed(value, |promises|)
      modifies this
      ensures var c := Engine.StaticResolve(old(State()), value);
        c.Created? && p == c.promise && State() == c.world
    {
      var r := Construct(Body([ResolveWith(value)]));
      p := r.promise;
    }

    /** `Promise.reject(reason)`. */
    method StaticReject(reason: Value) returns (p: PromiseId)
      requires Valid(State()) && Closed(reason, |promises|)
      modifies this
      ensures var c := Engine.StaticReject(old(State()), reason);
        c.Created? && p == c.promise && State() == c.world
    {
      var r := Construct(Body([RejectWith(reason)]));
      p := r.promise;
    }

    /** `Promise.defer()`: the new promise; its `resolve` and `reject` are `ResolvePromise(p, _, Raw)` and `Reject(p, _)`. */
    method Defer() returns (p: PromiseId)
      requires Valid(State())
      modifies this
      ensures var c := Engine.Defer(old(State()));
        c.Created? && p == c.promise && State() == c.world
    {
      var r := Construct(Body([]));
      p := r.promise;
    }

    /** The event loop takes the oldest timer callback off the queue and runs it. */
    method RunNextTask()
      requires Valid(State()) && HeadReady(State())
      modifies this
      ensures State() == Engine.RunTask(old(State()))
    {
      var task := tasks[0];
      tasks := tasks[1..];
      match task {
        case FinallyCallback =>
        case Handle(h, arg, d) =>
          if h.AdoptValue? {
            ResolvePromise(h.target, arg, h.cap);
            ResolvePromise(d, Undefined, Full);
          } else if h.AdoptReason? {
            Reject(h.target, arg);
            ResolvePromise(d, Undefined, Full);
          } else {
            if h.FinallyPassValue? || h.FinallyPassReason? {
              tasks := tasks + [FinallyCallback];
            }
            var c := Apply(h, arg);
            if c.Normal? {
              ResolvePromise(d, c.result, Full);
            } else {
              Reject(d, c.error);
            }
          }
      }
    }
  }

  /** What `new Promise(executor)` gives the caller: the new instance, or the error it throws. */
  datatype NewPromise = Made(promise: PromiseId) | Threw(error: Value)
}
