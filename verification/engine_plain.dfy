/**
 * Only plain values are ever fulfilled. Every path to `__resolve` goes through
 * the plain case of the resolution procedure, so a fulfilled promise never
 * holds one of the library's promises or a thenable. The handlers that `then`
 * registers for fulfilment only (the identity substitute, `finally`'s value
 * handler, adoption's value handler) therefore only ever receive plain values.
 */
module EnginePlain {
  import opened Values
  import opened Engine
  import opened EngineLaws

  /** The handlers that are only ever registered for the fulfilment side. */
  predicate ValueSide(h: Handler)
  {
    h.Identity? || h.FinallyPassValue? || h.AdoptValue?
  }

  /** A fulfilled promise holds a plain value, and no value-side handler waits for its rejection. */
  ghost predicate RecordPlain(r: PromiseRecord)
  {
    && (r.status == Fulfilled ==> Plain(r.value))
    && (forall k :: 0 <= k < |r.onRejectedCallbacks| ==> !ValueSide(r.onRejectedCallbacks[k].handler))
  }

  /** A queued value-side task carries a plain value. */
  ghost predicate TaskPlain(t: Task)
  {
    t.Handle? && ValueSide(t.handler) ==> Plain(t.arg)
  }

  ghost predicate PlainFulfilments(w: World)
  {
    && (forall i :: 0 <= i < |w.promises| ==> RecordPlain(w.promises[i]))
    && (forall k :: 0 <= k < |w.tasks| ==> TaskPlain(w.tasks[k]))
  }

  /** The heap before any promise exists. */
  lemma EmptyPlain()
    ensures PlainFulfilments(World([], []))
  {
  }

  lemma RejectKeepsPlain(w: World, p: PromiseId, reason: Value)
    requires p < |w.promises| && PlainFulfilments(w)
    ensures PlainFulfilments(Reject(w, p, reason))
  {
    var r := Reject(w, p, reason);
    if w.promises[p].status == Pending {
      assert RecordPlain(w.promises[p]);
      forall k | 0 <= k < |r.tasks|
        ensures TaskPlain(r.tasks[k])
      {
        if k >= |w.tasks| {
          assert r.tasks[k] == Drained(w.promises[p].onRejectedCallbacks, reason)[k - |w.tasks|];
        }
      }
    }
  }

  lemma FulfilKeepsPlain(w: World, p: PromiseId, value: Value)
    requires p < |w.promises| && PlainFulfilments(w) && Plain(value)
    ensures PlainFulfilments(Fulfil(w, p, value))
  {
    var r := Fulfil(w, p, value);
    if w.promises[p].status == Pending {
      assert RecordPlain(w.promises[p]);
      forall k | 0 <= k < |r.tasks|
        ensures TaskPlain(r.tasks[k])
      {
        if k >= |w.tasks| {
          assert r.tasks[k] == Drained(w.promises[p].onFulfilledCallbacks, value)[k - |w.tasks|];
        }
      }
    }
  }

  /** `then` keeps the invariant as long as its rejection handler is not a value-side one. */
  lemma ThenKeepsPlain(w: World, p: PromiseId, onFulfilled: Handler, onRejected: Handler)
    requires p < |w.promises| && PlainFulfilments(w) && !ValueSide(onRejected)
    ensures PlainFulfilments(Then(w, p, onFulfilled, onRejected).0)
  {
    var r := Then(w, p, onFulfilled, onRejected).0;
    assert RecordPlain(w.promises[p]);
    assert RecordPlain(r.promises[p]) by {
      var cbs := r.promises[p].onRejectedCallbacks;
      assert w.promises[p].status == Pending ==> cbs == w.promises[p].onRejectedCallbacks + [Reaction(onRejected, |w.promises|)];
    }
    forall i | 0 <= i < |r.promises|
      ensures RecordPlain(r.promises[i])
    {
      if i < |w.promises| && i != p {
        assert r.promises[i] == w.promises[i];
      }
    }
  }

  /** `then` as called: the rejection side is the user's function or the rethrow substitute. */
  lemma ThenWithKeepsPlain(w: World, p: PromiseId, onFulfilled: HandlerArg, onRejected: HandlerArg)
    requires p < |w.promises| && PlainFulfilments(w)
    ensures PlainFulfilments(ThenWith(w, p, onFulfilled, onRejected).0)
  {
    ThenKeepsPlain(w, p, OnFulfilledOf(onFulfilled), OnRejectedOf(onRejected));
  }

  lemma FinallyKeepsPlain(w: World, p: PromiseId)
    requires p < |w.promises| && PlainFulfilments(w)
    ensures PlainFulfilments(Finally(w, p).0)
  {
    ThenKeepsPlain(w, p, FinallyPassValue, FinallyPassReason);
  }

  /** The resolution procedure fulfils only in its plain case, so it keeps the invariant. */
  lemma {:induction false} ResolvePromiseKeepsPlain(w: World, target: PromiseId, x: Value, cap: Capability)
    requires Valid(w) && target < |w.promises| && Closed(x, |w.promises|) && PlainFulfilments(w)
    ensures PlainFulfilments(ResolvePromise(w, target, x, cap))
    decreases x, if cap == Full then 4 else 3
  {
    if x == Ref(target) {
      RejectKeepsPlain(w, target, TypeError(ChainingCycle));
    } else if x.Ref? {
      assert x.id in Refs(x);
      ThenKeepsPlain(w, x.id, AdoptValue(target, cap), AdoptReason(target));
    } else if IsObjectOrFunction(x) {
      match ReadThen(x)
      case ThrowsOnRead(e) =>
        RejectKeepsPlain(w, target, e);
      case NotCallable =>
        SettleWithKeepsPlain(w, target, x, cap);
      case Callable(script) =>
        RunThenKeepsPlain(w, target, cap, x, 0, false);
    } else {
      SettleWithKeepsPlain(w, target, x, cap);
    }
  }

  lemma {:induction false} SettleWithKeepsPlain(w: World, target: PromiseId, x: Value, cap: Capability)
    requires Valid(w) && target < |w.promises| && Closed(x, |w.promises|) && PlainFulfilments(w) && Plain(x)
    ensures PlainFulfilments(SettleWith(w, target, x, cap))
    decreases x, if cap == Full then 4 else 3, 1
  {
    if cap == Raw {
      FulfilKeepsPlain(w, target, x);
    } else {
      ResolvePromiseKeepsPlain(w, target, x, Raw);
    }
  }

  lemma {:induction false} RunThenKeepsPlain(w: World, target: PromiseId, cap: Capability, thenable: Value, k: nat, called: bool)
    requires thenable.Obj? && thenable.thenSlot.Callable? && k <= |thenable.thenSlot.script|
    requires Valid(w) && target < |w.promises| && Closed(thenable, |w.promises|) && PlainFulfilments(w)
    ensures PlainFulfilments(RunThen(w, target, cap, thenable, k, called))
    decreases thenable, 2, |thenable.thenSlot.script| - k
  {
    var script := thenable.thenSlot.script;
    if k < |script| {
      assert Refs(script[k].arg) <= Refs(thenable);
      match script[k]
      case ResolveWith(y) =>
        if called {
          RunThenKeepsPlain(w, target, cap, thenable, k + 1, true);
        } else {
          ResolvePromiseKeepsPlain(w, target, y, cap);
          RunThenKeepsPlain(ResolvePromise(w, target, y, cap), target, cap, thenable, k + 1, true);
        }
      case RejectWith(reason) =>
        if called {
          RunThenKeepsPlain(w, target, cap, thenable, k + 1, true);
        } else {
          RejectKeepsPlain(w, target, reason);
          RunThenKeepsPlain(Reject(w, target, reason), target, cap, thenable, k + 1, true);
        }
      case Raise(e) =>
        if !called {
          RejectKeepsPlain(w, target, e);
        }
    }
  }

  lemma {:induction false} RunExecutorKeepsPlain(w: World, p: PromiseId, script: seq<Call>, k: nat)
    requires k <= |script|
    requires Valid(w) && p < |w.promises| && ScriptClosed(script, |w.promises|) && PlainFulfilments(w)
    ensures PlainFulfilments(RunExecutor(w, p, script, k))
    decreases |script| - k
  {
    if k < |script| {
      match script[k]
      case ResolveWith(x) =>
        ResolvePromiseKeepsPlain(w, p, x, Raw);
        RunExecutorKeepsPlain(ResolvePromise(w, p, x, Raw), p, script, k + 1);
      case RejectWith(reason) =>
        RejectKeepsPlain(w, p, reason);
        RunExecutorKeepsPlain(Reject(w, p, reason), p, script, k + 1);
      case Raise(e) =>
        RejectKeepsPlain(w, p, e);
    }
  }

  /** `new Promise(executor)`, and with it `Promise.resolve`, `Promise.reject` and `Promise.defer`. */
  lemma ConstructKeepsPlain(w: World, executor: Executor)
    requires Valid(w) && (executor.Body? ==> ScriptClosed(executor.script, |w.promises|)) && PlainFulfilments(w)
    ensures var r := Construct(w, executor); r.Created? ==> PlainFulfilments(r.world)
  {
    if executor.Body? {
      var w1 := World(w.promises + [Fresh()], w.tasks);
      assert RecordValid(w1.promises[|w.promises|], |w1.promises|);
      assert PlainFulfilments(w1) by {
        forall i | 0 <= i < |w1.promises|
          ensures RecordPlain(w1.promises[i])
        {
          if i < |w.promises| {
            assert w1.promises[i] == w.promises[i];
          }
        }
      }
      RunExecutorKeepsPlain(w1, |w.promises|, executor.script, 0);
    }
  }

  /** Running a timer task keeps the invariant: a handler's result goes through the resolution procedure. */
  lemma RunTaskKeepsPlain(w: World)
    requires Valid(w) && HeadReady(w) && PlainFulfilments(w)
    ensures PlainFulfilments(RunTask(w))
  {
    var rest := World(w.promises, w.tasks[1..]);
    assert Valid(rest) && PlainFulfilments(rest);
    match w.tasks[0]
    case FinallyCallback =>
    case Handle(h, arg, d) =>
      if h.AdoptValue? {
        assert TaskPlain(w.tasks[0]);
        var w1 := ResolvePromise(rest, h.target, arg, h.cap);
        ResolvePromiseKeepsPlain(rest, h.target, arg, h.cap);
        ResolvePromiseKeepsPlain(w1, d, Undefined, Full);
      } else if h.AdoptReason? {
        var w1 := Reject(rest, h.target, arg);
        RejectKeepsPlain(rest, h.target, arg);
        ResolvePromiseKeepsPlain(w1, d, Undefined, Full);
      } else {
        var w1 := if h.FinallyPassValue? || h.FinallyPassReason? then World(rest.promises, rest.tasks + [FinallyCallback]) else rest;
        assert PlainFulfilments(w1);
        var c := Apply(h, arg);
        if c.Normal? {
          ResolvePromiseKeepsPlain(w1, d, c.result, Full);
        } else {
          RejectKeepsPlain(w1, d, c.error);
        }
      }
  }
}
