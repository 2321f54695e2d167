/**
 * What the engine of module Engine guarantees, stated over the pure heap model:
 * settlement is once-only (Promises/A+ 2.1), `then` never runs a handler before
 * it returns (2.2.4), missing handlers pass the outcome through (2.2.7.3-4),
 * and the resolution procedure follows 2.3.
 */
module EngineLaws {
  import opened Values
  import opened Engine

  /** `a` is a prefix of `b`. */
  ghost predicate Prefix<T>(a: seq<T>, b: seq<T>)
  {
    |a| <= |b| && b[..|a|] == a
  }

  /**
   * How one promise may change: a settled promise never changes again, a pending
   * one keeps its payload while it stays pending, and callbacks are only appended.
   */
  ghost predicate RecordEvolves(a: PromiseRecord, b: PromiseRecord)
  {
    && (a.status != Pending ==> b == a)
    && (a.status == Pending && b.status == Pending ==> b.value == a.value && b.reason == a.reason)
    && Prefix(a.onFulfilledCallbacks, b.onFulfilledCallbacks)
    && Prefix(a.onRejectedCallbacks, b.onRejectedCallbacks)
  }

  /** How the whole heap may change during one synchronous operation. */
  ghost predicate Evolves(w: World, w': World)
  {
    && |w.promises| <= |w'.promises|
    && (forall i :: 0 <= i < |w.promises| ==> RecordEvolves(w.promises[i], w'.promises[i]))
    && Prefix(w.tasks, w'.tasks)
  }

  /** A value a promise can be fulfilled with: not a promise and not a thenable. */
  predicate Plain(x: Value)
  {
    !x.Ref? && !(x.Obj? && !x.thenSlot.NotCallable?)
  }

  lemma {:induction false} EvolvesTransitive(w1: World, w2: World, w3: World)
    requires Evolves(w1, w2) && Evolves(w2, w3)
    ensures Evolves(w1, w3)
  {
    forall i | 0 <= i < |w1.promises|
      ensures RecordEvolves(w1.promises[i], w3.promises[i])
    {
      var a, b, c := w1.promises[i], w2.promises[i], w3.promises[i];
      assert RecordEvolves(a, b) && RecordEvolves(b, c);
      assert c.onFulfilledCallbacks[..|a.onFulfilledCallbacks|]
          == c.onFulfilledCallbacks[..|b.onFulfilledCallbacks|][..|a.onFulfilledCallbacks|];
      assert c.onRejectedCallbacks[..|a.onRejectedCallbacks|]
          == c.onRejectedCallbacks[..|b.onRejectedCallbacks|][..|a.onRejectedCallbacks|];
    }
    assert w3.tasks[..|w1.tasks|] == w3.tasks[..|w2.tasks|][..|w1.tasks|];
  }

  lemma RejectEvolves(w: World, p: PromiseId, reason: Value)
    requires p < |w.promises|
    ensures Evolves(w, Reject(w, p, reason))
  {
    var r := Reject(w, p, reason);
    assert r.tasks[..|w.tasks|] == w.tasks;
    assert w.promises[p].status == Pending ==> RecordEvolves(w.promises[p], r.promises[p]);
  }

  lemma FulfilEvolves(w: World, p: PromiseId, value: Value)
    requires p < |w.promises|
    ensures Evolves(w, Fulfil(w, p, value))
  {
    var r := Fulfil(w, p, value);
    assert r.tasks[..|w.tasks|] == w.tasks;
    assert w.promises[p].status == Pending ==> RecordEvolves(w.promises[p], r.promises[p]);
  }

  lemma ThenEvolves(w: World, p: PromiseId, onFulfilled: Handler, onRejected: Handler)
    requires p < |w.promises|
    ensures Evolves(w, Then(w, p, onFulfilled, onRejected).0)
  {
    var r := Then(w, p, onFulfilled, onRejected).0;
    assert r.tasks[..|w.tasks|] == w.tasks;
    var a, b := w.promises[p], r.promises[p];
    assert b.onFulfilledCallbacks[..|a.onFulfilledCallbacks|] == a.onFulfilledCallbacks;
    assert b.onRejectedCallbacks[..|a.onRejectedCallbacks|] == a.onRejectedCallbacks;
  }

  /** Promises/A+ 2.1: the resolution procedure never changes a settled promise. */
  lemma {:induction false} ResolvePromiseEvolves(w: World, target: PromiseId, x: Value, cap: Capability)
    requires Valid(w) && target < |w.promises| && Closed(x, |w.promises|)
    ensures Evolves(w, ResolvePromise(w, target, x, cap))
    decreases x, if cap == Full then 4 else 3
  {
    if x == Ref(target) {
      RejectEvolves(w, target, TypeError(ChainingCycle));
    } else if x.Ref? {
      assert x.id in Refs(x);
      ThenEvolves(w, x.id, AdoptValue(target, cap), AdoptReason(target));
    } else if IsObjectOrFunction(x) {
      match ReadThen(x)
      case ThrowsOnRead(e) =>
        RejectEvolves(w, target, e);
      case NotCallable =>
        SettleWithEvolves(w, target, x, cap);
      case Callable(script) =>
        RunThenEvolves(w, target, cap, x, 0, false);
    } else {
      SettleWithEvolves(w, target, x, cap);
    }
  }

  lemma {:induction false} SettleWithEvolves(w: World, target: PromiseId, x: Value, cap: Capability)
    requires Valid(w) && target < |w.promises| && Closed(x, |w.promises|)
    ensures Evolves(w, SettleWith(w, target, x, cap))
    decreases x, if cap == Full then 4 else 3, 1
  {
    if cap == Raw {
      FulfilEvolves(w, target, x);
    } else {
      ResolvePromiseEvolves(w, target, x, Raw);
    }
  }

  lemma {:induction false} RunThenEvolves(w: World, target: PromiseId, cap: Capability, thenable: Value, k: nat, called: bool)
    requires thenable.Obj? && thenable.thenSlot.Callable? && k <= |thenable.thenSlot.script|
    requires Valid(w) && target < |w.promises| && Closed(thenable, |w.promises|)
    ensures Evolves(w, RunThen(w, target, cap, thenable, k, called))
    decreases thenable, 2, |thenable.thenSlot.script| - k
  {
    var script := thenable.thenSlot.script;
    if k < |script| {
      assert Refs(script[k].arg) <= Refs(thenable);
      match script[k]
      case ResolveWith(y) =>
        if called {
          RunThenEvolves(w, target, cap, thenable, k + 1, true);
        } else {
          var w1 := ResolvePromise(w, target, y, cap);
          ResolvePromiseEvolves(w, target, y, cap);
          RunThenEvolves(w1, target, cap, thenable, k + 1, true);
          EvolvesTransitive(w, w1, RunThen(w1, target, cap, thenable, k + 1, true));
        }
      case RejectWith(reason) =>
        if called {
          RunThenEvolves(w, target, cap, thenable, k + 1, true);
        } else {
          var w1 := Reject(w, target, reason);
          RejectEvolves(w, target, reason);
          RunThenEvolves(w1, target, cap, thenable, k + 1, true);
          EvolvesTransitive(w, w1, RunThen(w1, target, cap, thenable, k + 1, true));
        }
      case Raise(e) =>
        if !called {
          RejectEvolves(w, target, e);
        }
    }
  }

  // ----- the one-shot `called` guard (Promises/A+ 2.3.3.3.3 and 2.3.3.3.4) -----

  /** Once `called` is set, no later resolve call, reject call or throw has any effect. */
  lemma {:induction false} CalledIgnoresRest(w: World, target: PromiseId, cap: Capability, thenable: Value, k: nat)
    requires thenable.Obj? && thenable.thenSlot.Callable? && k <= |thenable.thenSlot.script|
    requires Valid(w) && target < |w.promises| && Closed(thenable, |w.promises|)
    ensures RunThen(w, target, cap, thenable, k, true) == w
    decreases |thenable.thenSlot.script| - k
  {
    if k < |thenable.thenSlot.script| && !thenable.thenSlot.script[k].Raise? {
      CalledIgnoresRest(w, target, cap, thenable, k + 1);
    }
  }

  /**
   * First call wins: whatever the thenable's `then` does after its first resolve
   * call, reject call or throw, the outcome is that of the first one alone.
   */
  lemma FirstCallWins(w: World, target: PromiseId, cap: Capability, thenable: Value)
    requires thenable.Obj? && thenable.thenSlot.Callable? && thenable.thenSlot.script != []
    requires Valid(w) && target < |w.promises| && Closed(thenable, |w.promises|)
    requires Closed(thenable.thenSlot.script[0].arg, |w.promises|)
    ensures var first := thenable.thenSlot.script[0];
      RunThen(w, target, cap, thenable, 0, false) ==
        if first.ResolveWith? then ResolvePromise(w, target, first.arg, cap)
        else Reject(w, target, first.arg)
  {
    var script := thenable.thenSlot.script;
    assert Refs(script[0].arg) <= Refs(thenable);
    match script[0]
    case ResolveWith(y) =>
      CalledIgnoresRest(ResolvePromise(w, target, y, cap), target, cap, thenable, 1);
    case RejectWith(reason) =>
      CalledIgnoresRest(Reject(w, target, reason), target, cap, thenable, 1);
    case Raise(e) =>
  }

  /** A `then` that never calls back leaves the target untouched. */
  lemma SilentThenableLeavesPending(w: World, target: PromiseId, cap: Capability, thenable: Value)
    requires thenable.Obj? && thenable.thenSlot == Callable([])
    requires Valid(w) && target < |w.promises| && Closed(thenable, |w.promises|)
    requires thenable != Ref(target)
    ensures ResolvePromise(w, target, thenable, cap) == w
  {
  }

  // ----- the resolution procedure, case by case (Promises/A+ 2.3) -----

  /** 2.3.1: a promise resolved with itself is rejected with a TypeError. */
  lemma CycleRejects(w: World, target: PromiseId, cap: Capability)
    requires Valid(w) && target < |w.promises| && w.promises[target].status == Pending
    ensures var r := ResolvePromise(w, target, Ref(target), cap);
      && r.promises[target].status == Rejected && r.promises[target].reason == TypeError(ChainingCycle)
      && r.tasks == w.tasks + Drained(w.promises[target].onRejectedCallbacks, TypeError(ChainingCycle))
      && |r.promises| == |w.promises|
      && (forall i :: 0 <= i < |w.promises| && i != target ==> r.promises[i] == w.promises[i])
  {
    assert Closed(Ref(target), |w.promises|);
  }

  /**
   * 2.3.3.4 and 2.3.4: a value that is neither a promise nor a thenable fulfils
   * the target with that very value, whichever capability is used.
   */
  lemma {:induction false} PlainFulfils(w: World, target: PromiseId, x: Value, cap: Capability)
    requires Valid(w) && target < |w.promises| && Closed(x, |w.promises|) && Plain(x)
    requires w.promises[target].status == Pending
    ensures var r := ResolvePromise(w, target, x, cap);
      && r.promises[target].status == Fulfilled && r.promises[target].value == x
      && r.tasks == w.tasks + Drained(w.promises[target].onFulfilledCallbacks, x)
      && |r.promises| == |w.promises|
      && (forall i :: 0 <= i < |w.promises| && i != target ==> r.promises[i] == w.promises[i])
    decreases if cap == Full then 1 else 0
  {
    if cap == Full {
      PlainFulfils(w, target, x, Raw);
    }
  }

  /** 2.3.3.2: a `then` getter that throws rejects the target with the error. */
  lemma ThrowingGetterRejects(w: World, target: PromiseId, e: Value, cap: Capability)
    requires Valid(w) && target < |w.promises| && Closed(Obj(ThrowsOnRead(e)), |w.promises|)
    requires w.promises[target].status == Pending
    ensures var r := ResolvePromise(w, target, Obj(ThrowsOnRead(e)), cap);
      && r.promises[target].status == Rejected && r.promises[target].reason == e
      && r.tasks == w.tasks + Drained(w.promises[target].onRejectedCallbacks, e)
      && |r.promises| == |w.promises|
      && (forall i :: 0 <= i < |w.promises| && i != target ==> r.promises[i] == w.promises[i])
  {
  }

  /**
   * 2.3.2: resolving with another of the library's promises `q` subscribes to it:
   * nothing settles now; a settled `q` schedules exactly one adoption task, a
   * pending `q` gets one adoption reaction on each callback array.
   */
  lemma AdoptionSubscribes(w: World, target: PromiseId, q: PromiseId, cap: Capability)
    requires Valid(w) && target < |w.promises| && q < |w.promises| && q != target
    ensures var r := ResolvePromise(w, target, Ref(q), cap);
      var d := |w.promises|;
      && |r.promises| == d + 1
      && (forall i :: 0 <= i < d ==> r.promises[i].status == w.promises[i].status)
      && (w.promises[q].status == Fulfilled ==>
            r.tasks == w.tasks + [Handle(AdoptValue(target, cap), w.promises[q].value, d)])
      && (w.promises[q].status == Rejected ==>
            r.tasks == w.tasks + [Handle(AdoptReason(target), w.promises[q].reason, d)])
      && (w.promises[q].status == Pending ==>
            && r.tasks == w.tasks
            && r.promises[q].onFulfilledCallbacks == w.promises[q].onFulfilledCallbacks + [Reaction(AdoptValue(target, cap), d)]
            && r.promises[q].onRejectedCallbacks == w.promises[q].onRejectedCallbacks + [Reaction(AdoptReason(target), d)])
  {
    assert Closed(Ref(q), |w.promises|);
  }
}
