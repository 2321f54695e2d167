/**
 * The teaching variants that guard settlement with a status:
 *
 *   - `PromiseFunctorWithStatus` and its twin `PromiseObserverWithStatus`
 *     (`map`/`subscribe`, `resolve`/`notify`): one channel, PENDING or FULFILLED;
 *   - `PromiseFunctorWithTwoStatus`: a fulfilment and a rejection channel, with
 *     `map(onFulfilled, onRejected)`;
 *   - `PromiseObserverWithTwoStatus`: both channels, one `fn` for both, and a
 *     `notifyReject` that names the undeclared `tthis` after settling;
 *   - `PromiseMaybeWithTwoStatus`: `map` with default handlers, identity for
 *     fulfilment and a rethrow for rejection.
 *
 * All run synchronously: settling an instance runs its callbacks at once, and
 * each callback settles a child created by `map`. A JavaScript exception that
 * escapes is the `thrown` part of a `Run`.
 */
module Guarded {
  import opened Values
  import opened Ancestry

  datatype Option<T> = None | Some(value: T)

  datatype Variant =
    | WithStatus              // PromiseFunctorWithStatus, PromiseObserverWithStatus
    | FunctorWithTwoStatus
    | ObserverWithTwoStatus
    | MaybeWithTwoStatus

  datatype Status = Pending | Fulfilled | Rejected

  /** `resolve` (and `notify`, `notifyResolve`) versus `reject` (`notifyReject`). */
  datatype Channel = Fulfilment | Rejection

  /** What the caller passes to `map`/`subscribe` as a handler: a function, or anything else. */
  datatype Argument = Function(f: Value -> Value) | NotAFunction

  /**
   * A handler as a callback calls it: a user function; the default that
   * `PromiseMaybeWithTwoStatus` substitutes for a non-function argument; or, in
   * the other classes, the non-function argument itself, whose call throws.
   */
  datatype Handler = Given(f: Value -> Value) | Default | Missing

  /** What `map` keeps of an argument: only `PromiseMaybeWithTwoStatus` replaces a non-function by its default. */
  function Substitute(variant: Variant, a: Argument): (h: Handler)
    ensures a.Function? ==> h == Given(a.f)
    ensures a.NotAFunction? ==> (h.Default? <==> variant.MaybeWithTwoStatus?) && (h.Missing? <==> !variant.MaybeWithTwoStatus?)
  {
    match a
    case Function(f) => Given(f)
    case NotAFunction => if variant.MaybeWithTwoStatus? then Default else Missing
  }

  /** `() => resolve(onFulfilled(this.value))` or `() => reject(onRejected(this.reason))`, settling instance `child`. */
  datatype Callback = Callback(handler: Handler, child: nat)

  datatype Instance = Instance(
    status: Status,
    value: Value,
    reason: Value,
    onFulfilled: seq<Callback>,
    onRejected: seq<Callback>)

  /** The heap after a call, and the exception the call let escape, if any. */
  datatype Run = Run(heap: seq<Instance>, thrown: Option<Value>)

  const Fresh := Instance(Pending, Undefined, Undefined, [], [])

  function Callbacks(x: Instance, ch: Channel): seq<Callback>
  {
    if ch.Fulfilment? then x.onFulfilled else x.onRejected
  }

  function Payload(x: Instance, ch: Channel): Value
  {
    if ch.Fulfilment? then x.value else x.reason
  }

  /** The instance after the status guard let `ch` through with `y`. */
  function Settled(x: Instance, ch: Channel, y: Value): (r: Instance)
    ensures !r.status.Pending? && Payload(r, ch) == y
    ensures r.onFulfilled == x.onFulfilled && r.onRejected == x.onRejected
    ensures ch.Fulfilment? ==> r.status.Fulfilled? && r.reason == x.reason
    ensures ch.Rejection? ==> r.status.Rejected? && r.value == x.value
  {
    if ch.Fulfilment? then x.(status := Fulfilled, value := y) else x.(status := Rejected, reason := y)
  }

  /** The handlers whose call on channel `ch` throws. */
  predicate Throws(ch: Channel, h: Handler)
  {
    h.Missing? || (h.Default? && ch.Rejection?)
  }

  /**
   * Calling a handler on a payload: the default rejection handler rethrows the
   * payload, a non-function throws a TypeError, and nothing else throws.
   */
  function Apply(ch: Channel, h: Handler, x: Value): (c: Completion)
    ensures c.Thrown? <==> Throws(ch, h)
    ensures h.Default? && ch.Rejection? ==> c == Thrown(x)
    ensures h.Missing? ==> c == Thrown(TypeError(CalledNonFunction))
    ensures h.Default? && ch.Fulfilment? ==> c == Normal(x)
  {
    match h
    case Given(f) => Normal(f(x))
    case Default => if ch.Fulfilment? then Normal(x) else Thrown(x)
    case Missing => Thrown(TypeError(CalledNonFunction))
  }

  /** The callback lists of one instance. */
  datatype Lists = Lists(onFulfilled: seq<Callback>, onRejected: seq<Callback>)

  /** The callback lists of every instance: the part of a heap that settling never changes. */
  ghost function Shape(xs: seq<Instance>): (sh: seq<Lists>)
    ensures |sh| == |xs|
  {
    seq(|xs|, m requires 0 <= m < |xs| => Lists(xs[m].onFulfilled, xs[m].onRejected))
  }

  lemma SameShape(xs: seq<Instance>, ys: seq<Instance>)
    requires Shape(ys) == Shape(xs)
    ensures |ys| == |xs|
    ensures forall m :: 0 <= m < |xs| ==> ys[m].onFulfilled == xs[m].onFulfilled && ys[m].onRejected == xs[m].onRejected
  {
    forall m | 0 <= m < |xs|
      ensures ys[m].onFulfilled == xs[m].onFulfilled && ys[m].onRejected == xs[m].onRejected
    {
      assert Shape(ys)[m] == Shape(xs)[m];
    }
  }

  /** Every callback in `cbs`, owned by instance `i`, settles an instance created after it. */
  ghost predicate Later(cbs: seq<Callback>, i: nat, n: nat)
  {
    forall k :: 0 <= k < |cbs| ==> i < cbs[k].child < n
  }

  ghost predicate Wired(xs: seq<Instance>)
  {
    forall i :: 0 <= i < |xs| ==> Later(xs[i].onFulfilled, i, |xs|) && Later(xs[i].onRejected, i, |xs|)
  }

  /**
   * `resolve(y)` (`ch` = Fulfilment) or `reject(y)` (Rejection) on instance `i`.
   * A settled instance ignores it. A pending one takes the new status and
   * payload first, then runs the callbacks of the matching list in push order;
   * in `PromiseObserverWithTwoStatus` a rejection instead ends at the
   * `tthis` typo with a ReferenceError, so its rejection callbacks never run.
   */
  function Settle(variant: Variant, xs: seq<Instance>, i: nat, ch: Channel, y: Value): (r: Run)
    requires Wired(xs) && i < |xs|
    ensures |r.heap| == |xs| && Wired(r.heap)
    ensures Shape(r.heap) == Shape(xs)
    ensures forall m :: 0 <= m < i ==> r.heap[m] == xs[m]
    ensures !xs[i].status.Pending? ==> r == Run(xs, None)
    ensures xs[i].status.Pending? ==> r.heap[i] == Settled(xs[i], ch, y)
    decreases |xs| - i, 1, 0, 0
  {
    if !xs[i].status.Pending? then Run(xs, None)
    else
      var ys := xs[i := Settled(xs[i], ch, y)];
      if variant.ObserverWithTwoStatus? && ch.Rejection? then Run(ys, Some(ReferenceError))
      else Drain(variant, ys, i, ch, 0)
  }

  /**
   * The `forEach` over the `ch` list of `i`, from the `k`-th callback on. An
   * exception from a callback ends the `forEach` and escapes.
   */
  function Drain(variant: Variant, xs: seq<Instance>, i: nat, ch: Channel, k: nat): (r: Run)
    requires Wired(xs) && i < |xs| && k <= |Callbacks(xs[i], ch)|
    ensures |r.heap| == |xs| && Wired(r.heap) && r.heap[i] == xs[i]
    ensures Shape(r.heap) == Shape(xs)
    ensures forall m :: 0 <= m < i ==> r.heap[m] == xs[m]
    decreases |xs| - i, 0, |Callbacks(xs[i], ch)| - k, 1
  {
    if k == |Callbacks(xs[i], ch)| then Run(xs, None)
    else
      var r := Step(variant, xs, i, ch, k);
      if r.thrown.Some? then r else Drain(variant, r.heap, i, ch, k + 1)
  }

  /** One callback of the `forEach`: apply its handler to the payload and settle its child the same way. */
  function Step(variant: Variant, xs: seq<Instance>, i: nat, ch: Channel, k: nat): (r: Run)
    requires Wired(xs) && i < |xs| && k < |Callbacks(xs[i], ch)|
    ensures |r.heap| == |xs| && Wired(r.heap)
    ensures Shape(r.heap) == Shape(xs)
    ensures forall m :: 0 <= m <= i ==> r.heap[m] == xs[m]
    decreases |xs| - i, 0, |Callbacks(xs[i], ch)| - k, 0
  {
    var cb := Callbacks(xs[i], ch)[k];
    var c := Apply(ch, cb.handler, Payload(xs[i], ch));
    if c.Thrown? then Run(xs, Some(c.error)) else Settle(variant, xs, cb.child, ch, c.result)
  }

  /**
   * `map(onFulfilled, onRejected)` on instance `p` (`subscribe(fn)` passes `fn`
   * twice). The child is the new instance `|xs|`. A settled parent settles it at
   * once through the handler of its own status; a pending parent gets one more
   * callback on each of its lists (the single-channel classes have only the
   * fulfilment list). An exception from the executor escapes from `map`, and
   * the child it created is then never handed out.
   */
  function Mapped(variant: Variant, xs: seq<Instance>, p: nat, onF: Handler, onR: Handler): (r: Run)
    requires Wired(xs) && p < |xs|
    ensures |r.heap| == |xs| + 1 && Wired(r.heap)
    ensures forall m :: 0 <= m < |xs| && m != p ==> r.heap[m] == xs[m]
    ensures !xs[p].status.Pending? ==> r.heap[p] == xs[p]
    ensures xs[p].status.Fulfilled? ==>
      var a := Apply(Fulfilment, onF, xs[p].value);
      if a.Thrown? then r == Run(xs + [Fresh], Some(a.error))
      else r == Run(xs + [Settled(Fresh, Fulfilment, a.result)], None)
    ensures xs[p].status.Rejected? ==>
      var a := Apply(Rejection, onR, xs[p].reason);
      if a.Thrown? then r == Run(xs + [Fresh], Some(a.error))
      else (r.heap[|xs|] == Settled(Fresh, Rejection, a.result)
            && r.thrown == (if variant.ObserverWithTwoStatus? then Some(ReferenceError) else None))
    ensures xs[p].status.Pending? ==>
      && r.thrown == None && r.heap[|xs|] == Fresh
      && r.heap[p].status.Pending? && r.heap[p].value == xs[p].value && r.heap[p].reason == xs[p].reason
      && r.heap[p].onFulfilled == xs[p].onFulfilled + [Callback(onF, |xs|)]
      && r.heap[p].onRejected == xs[p].onRejected + (if variant.WithStatus? then [] else [Callback(onR, |xs|)])
  {
    var c := |xs|;
    var ys := xs + [Fresh];
    if xs[p].status.Fulfilled? then
      var a := Apply(Fulfilment, onF, xs[p].value);
      if a.Thrown? then Run(ys, Some(a.error))
      else
        assert Drain(variant, ys[c := Settled(Fresh, Fulfilment, a.result)], c, Fulfilment, 0).heap == ys[c := Settled(Fresh, Fulfilment, a.result)];
        Settle(variant, ys, c, Fulfilment, a.result)
    else if xs[p].status.Rejected? then
      var a := Apply(Rejection, onR, xs[p].reason);
      if a.Thrown? then Run(ys, Some(a.error))
      else
        assert Drain(variant, ys[c := Settled(Fresh, Rejection, a.result)], c, Rejection, 0).thrown == None;
        Settle(variant, ys, c, Rejection, a.result)
    else
      Run(Pushed(xs, p, onF, onR, !variant.WithStatus?), None)
  }

  /**
   * `parent[c]` is the instance whose callback settles `c` (-1 for instances the
   * user created); no list holds the same child twice.
   */
  ghost predicate Tree(xs: seq<Instance>, parent: seq<int>)
  {
    && |parent| == |xs| && Ordered(parent) && Wired(xs)
    && forall i :: 0 <= i < |xs| ==> Edges(xs[i].onFulfilled, i, parent) && Edges(xs[i].onRejected, i, parent)
  }

  /** The children of the callbacks in `cbs` have `i` as their parent and are all different. */
  ghost predicate Edges(cbs: seq<Callback>, i: nat, parent: seq<int>)
  {
    && (forall k :: 0 <= k < |cbs| && 0 <= cbs[k].child < |parent| ==> parent[cbs[k].child] == i)
    && (forall k1, k2 :: 0 <= k1 < k2 < |cbs| ==> cbs[k1].child != cbs[k2].child)
  }

  /** A child of a pending instance is pending: only its parent's callbacks can settle it. */
  ghost predicate Linked(xs: seq<Instance>, parent: seq<int>)
    requires |parent| == |xs|
  {
    forall m :: 0 <= m < |xs| && 0 <= parent[m] < |xs| && xs[parent[m]].status.Pending? ==> xs[m].status.Pending?
  }

  /** No callback on a `ch` list anywhere has a handler that throws on `ch`. */
  ghost predicate Quiet(xs: seq<Instance>, ch: Channel)
  {
    forall i, k :: 0 <= i < |xs| && 0 <= k < |Callbacks(xs[i], ch)| ==> !Throws(ch, Callbacks(xs[i], ch)[k].handler)
  }

  lemma TreeEdge(xs: seq<Instance>, parent: seq<int>, i: nat, ch: Channel, k: nat)
    requires Tree(xs, parent) && i < |xs| && k < |Callbacks(xs[i], ch)|
    ensures var c := Callbacks(xs[i], ch)[k].child; i < c < |xs| && parent[c] == i
  {
  }

  /** Same callbacks, same shape: the heap changes a settlement makes keep `Tree`. */
  lemma TreeKept(xs: seq<Instance>, ys: seq<Instance>, parent: seq<int>)
    requires Tree(xs, parent)
    requires Shape(ys) == Shape(xs)
    ensures Tree(ys, parent)
  {
    SameShape(xs, ys);
  }

  /** The subtrees of two different callbacks' children in one list do not overlap. */
  lemma SiblingSubtrees(xs: seq<Instance>, parent: seq<int>, i: nat, ch: Channel, j: nat, l: nat, m: nat)
    requires Tree(xs, parent) && i < |xs| && j < |Callbacks(xs[i], ch)| && l < |Callbacks(xs[i], ch)| && j != l
    requires Desc(parent, Callbacks(xs[i], ch)[j].child, m)
    ensures !Desc(parent, Callbacks(xs[i], ch)[l].child, m)
  {
    var c1, c2 := Callbacks(xs[i], ch)[j].child, Callbacks(xs[i], ch)[l].child;
    TreeEdge(xs, parent, i, ch, j);
    TreeEdge(xs, parent, i, ch, l);
    assert c1 != c2 by {
      if j < l { assert c1 != c2; } else { assert c2 != c1; }
    }
    SiblingsDisjoint(parent, i, c1, c2, m);
  }

  /** Once settled, an instance never changes again: not its status, payloads or lists. */
  lemma {:induction false} SettleFrozen(variant: Variant, xs: seq<Instance>, i: nat, ch: Channel, y: Value, m: nat)
    requires Wired(xs) && i < |xs| && m < |xs| && !xs[m].status.Pending?
    ensures Settle(variant, xs, i, ch, y).heap[m] == xs[m]
    decreases |xs| - i, 1, 0, 0
  {
    if xs[i].status.Pending? && !(variant.ObserverWithTwoStatus? && ch.Rejection?) {
      DrainFrozen(variant, xs[i := Settled(xs[i], ch, y)], i, ch, 0, m);
    }
  }

  lemma {:induction false} DrainFrozen(variant: Variant, xs: seq<Instance>, i: nat, ch: Channel, k: nat, m: nat)
    requires Wired(xs) && i < |xs| && k <= |Callbacks(xs[i], ch)| && m < |xs| && !xs[m].status.Pending?
    ensures Drain(variant, xs, i, ch, k).heap[m] == xs[m]
    decreases |xs| - i, 0, |Callbacks(xs[i], ch)| - k, 1
  {
    if k < |Callbacks(xs[i], ch)| {
      var r := Step(variant, xs, i, ch, k);
      StepFrozen(variant, xs, i, ch, k, m);
      DrainUnfold(variant, xs, i, ch, k);
      if r.thrown.None? {
        DrainFrozen(variant, r.heap, i, ch, k + 1, m);
      }
    }
  }

  lemma {:induction false} StepFrozen(variant: Variant, xs: seq<Instance>, i: nat, ch: Channel, k: nat, m: nat)
    requires Wired(xs) && i < |xs| && k < |Callbacks(xs[i], ch)| && m < |xs| && !xs[m].status.Pending?
    ensures Step(variant, xs, i, ch, k).heap[m] == xs[m]
    decreases |xs| - i, 0, |Callbacks(xs[i], ch)| - k, 0
  {
    var cb := Callbacks(xs[i], ch)[k];
    var c := Apply(ch, cb.handler, Payload(xs[i], ch));
    if c.Normal? {
      SettleFrozen(variant, xs, cb.child, ch, c.result, m);
    }
  }

  /** Settling `i` changes only `i` and the instances below it. */
  lemma {:induction false} SettleFrame(variant: Variant, xs: seq<Instance>, parent: seq<int>, i: nat, ch: Channel, y: Value, m: nat)
    requires Tree(xs, parent) && i < |xs| && m < |xs| && !Desc(parent, i, m)
    ensures Settle(variant, xs, i, ch, y).heap[m] == xs[m]
    decreases |xs| - i, 1, 0, 0
  {
    if xs[i].status.Pending? && !(variant.ObserverWithTwoStatus? && ch.Rejection?) {
      var ys := xs[i := Settled(xs[i], ch, y)];
      TreeKept(xs, ys, parent);
      DrainFrame(variant, ys, parent, i, ch, 0, m);
    }
  }

  lemma {:induction false} DrainFrame(variant: Variant, xs: seq<Instance>, parent: seq<int>, i: nat, ch: Channel, k: nat, m: nat)
    requires Tree(xs, parent) && i < |xs| && k <= |Callbacks(xs[i], ch)| && m < |xs| && !Desc(parent, i, m)
    ensures Drain(variant, xs, i, ch, k).heap[m] == xs[m]
    decreases |xs| - i, 0, |Callbacks(xs[i], ch)| - k, 3
  {
    if k < |Callbacks(xs[i], ch)| {
      var r := Step(variant, xs, i, ch, k);
      StepFrameUnfold(variant, xs, parent, i, ch, k, m);
      if r.thrown.None? {
        DrainFrame(variant, r.heap, parent, i, ch, k + 1, m);
      }
    }
  }

  /** One turn of the `forEach` seen from an instance `m` outside the subtree of `i`. */
  lemma StepFrameUnfold(variant: Variant, xs: seq<Instance>, parent: seq<int>, i: nat, ch: Channel, k: nat, m: nat)
    requires Tree(xs, parent) && i < |xs| && k < |Callbacks(xs[i], ch)| && m < |xs| && !Desc(parent, i, m)
    ensures var r := Step(variant, xs, i, ch, k);
      && r.heap[m] == xs[m] && r.heap[i] == xs[i] && Tree(r.heap, parent)
      && Drain(variant, xs, i, ch, k) == (if r.thrown.Some? then r else Drain(variant, r.heap, i, ch, k + 1))
    decreases |xs| - i, 0, |Callbacks(xs[i], ch)| - k, 2
  {
    StepSparesOutside(variant, xs, parent, i, ch, k, m);
    DrainUnfold(variant, xs, i, ch, k);
    TreeKept(xs, Step(variant, xs, i, ch, k).heap, parent);
  }

  /** A callback of `i` changes nothing outside the subtree of `i`. */
  lemma StepSparesOutside(variant: Variant, xs: seq<Instance>, parent: seq<int>, i: nat, ch: Channel, k: nat, m: nat)
    requires Tree(xs, parent) && i < |xs| && k < |Callbacks(xs[i], ch)| && m < |xs| && !Desc(parent, i, m)
    ensures Step(variant, xs, i, ch, k).heap[m] == xs[m]
    decreases |xs| - i, 0, |Callbacks(xs[i], ch)| - k, 1
  {
    var c := Callbacks(xs[i], ch)[k].child;
    TreeEdge(xs, parent, i, ch, k);
    if Desc(parent, c, m) {
      ChildSubtree(parent, i, c, m);
    }
    StepFrame(variant, xs, parent, i, ch, k, m);
  }

  lemma {:induction false} StepFrame(variant: Variant, xs: seq<Instance>, parent: seq<int>, i: nat, ch: Channel, k: nat, m: nat)
    requires Tree(xs, parent) && i < |xs| && k < |Callbacks(xs[i], ch)| && m < |xs|
    requires !Desc(parent, Callbacks(xs[i], ch)[k].child, m)
    ensures Step(variant, xs, i, ch, k).heap[m] == xs[m]
    decreases |xs| - i, 0, |Callbacks(xs[i], ch)| - k, 0
  {
    var cb := Callbacks(xs[i], ch)[k];
    var c := Apply(ch, cb.handler, Payload(xs[i], ch));
    if c.Normal? {
      SettleFrame(variant, xs, parent, cb.child, ch, c.result, m);
    }
  }

  /**
   * Settlement keeps every child of a pending instance pending, provided the
   * instance settled is a root or a child of a settled one: the only instances
   * whose `resolve`/`reject` anybody holds.
   */
  lemma {:induction false} SettleLinked(variant: Variant, xs: seq<Instance>, parent: seq<int>, i: nat, ch: Channel, y: Value)
    requires Tree(xs, parent) && Linked(xs, parent) && i < |xs|
    requires parent[i] < 0 || !xs[parent[i]].status.Pending?
    ensures Linked(Settle(variant, xs, i, ch, y).heap, parent)
    decreases |xs| - i, 1, 0, 0
  {
    if xs[i].status.Pending? {
      var ys := xs[i := Settled(xs[i], ch, y)];
      TreeKept(xs, ys, parent);
      if !(variant.ObserverWithTwoStatus? && ch.Rejection?) {
        DrainLinked(variant, ys, parent, i, ch, 0);
      }
    }
  }

  lemma {:induction false} DrainLinked(variant: Variant, xs: seq<Instance>, parent: seq<int>, i: nat, ch: Channel, k: nat)
    requires Tree(xs, parent) && Linked(xs, parent) && i < |xs| && !xs[i].status.Pending?
    requires k <= |Callbacks(xs[i], ch)|
    ensures Linked(Drain(variant, xs, i, ch, k).heap, parent)
    decreases |xs| - i, 0, |Callbacks(xs[i], ch)| - k, 1
  {
    if k < |Callbacks(xs[i], ch)| {
      var r := Step(variant, xs, i, ch, k);
      StepLinked(variant, xs, parent, i, ch, k);
      if r.thrown.None? {
        assert r.heap[i] == xs[i];
        assert Drain(variant, xs, i, ch, k) == Drain(variant, r.heap, i, ch, k + 1);
        TreeKept(xs, r.heap, parent);
        DrainLinked(variant, r.heap, parent, i, ch, k + 1);
      }
    }
  }

  lemma {:induction false} StepLinked(variant: Variant, xs: seq<Instance>, parent: seq<int>, i: nat, ch: Channel, k: nat)
    requires Tree(xs, parent) && Linked(xs, parent) && i < |xs| && !xs[i].status.Pending?
    requires k < |Callbacks(xs[i], ch)|
    ensures Linked(Step(variant, xs, i, ch, k).heap, parent)
    decreases |xs| - i, 0, |Callbacks(xs[i], ch)| - k, 0
  {
    var cb := Callbacks(xs[i], ch)[k];
    var c := Apply(ch, cb.handler, Payload(xs[i], ch));
    if c.Normal? {
      TreeEdge(xs, parent, i, ch, k);
      SettleLinked(variant, xs, parent, cb.child, ch, c.result);
    }
  }

  /**
   * When a pending instance settles through `ch` and nothing escapes, the child
   * of each of its `ch` callbacks ends settled the same way, with the callback's
   * handler applied to the payload.
   */
  lemma ChildSettles(variant: Variant, xs: seq<Instance>, parent: seq<int>, i: nat, ch: Channel, y: Value, k: nat)
    requires Tree(xs, parent) && Linked(xs, parent) && i < |xs| && xs[i].status.Pending?
    requires !(variant.ObserverWithTwoStatus? && ch.Rejection?)
    requires k < |Callbacks(xs[i], ch)|
    ensures var cb := Callbacks(xs[i], ch)[k];
      var r := Settle(variant, xs, i, ch, y);
      var a := Apply(ch, cb.handler, y);
      r.thrown.None? ==> a.Normal? && r.heap[cb.child] == Settled(xs[cb.child], ch, a.result)
  {
    var ys := xs[i := Settled(xs[i], ch, y)];
    TreeKept(xs, ys, parent);
    TreeEdge(xs, parent, i, ch, k);
    DrainReach(variant, ys, parent, i, ch, 0, k);
  }

  lemma {:induction false} DrainReach(variant: Variant, xs: seq<Instance>, parent: seq<int>, i: nat, ch: Channel, j: nat, k: nat)
    requires Tree(xs, parent) && i < |xs| && j <= k < |Callbacks(xs[i], ch)|
    requires xs[Callbacks(xs[i], ch)[k].child].status.Pending?
    ensures var cb := Callbacks(xs[i], ch)[k];
      var d := Drain(variant, xs, i, ch, j);
      var a := Apply(ch, cb.handler, Payload(xs[i], ch));
      d.thrown.None? ==> a.Normal? && d.heap[cb.child] == Settled(xs[cb.child], ch, a.result)
    decreases k - j
  {
    if j == k {
      DrainReachHere(variant, xs, i, ch, k);
    } else {
      var r := Step(variant, xs, i, ch, j);
      DrainUnfold(variant, xs, i, ch, j);
      if r.thrown.None? {
        SiblingUntouched(variant, xs, parent, i, ch, j, k);
        TreeKept(xs, r.heap, parent);
        DrainReach(variant, r.heap, parent, i, ch, j + 1, k);
      }
    }
  }

  /** The `k`-th callback settles its pending child, and the callbacks after it leave the child settled. */
  lemma DrainReachHere(variant: Variant, xs: seq<Instance>, i: nat, ch: Channel, k: nat)
    requires Wired(xs) && i < |xs| && k < |Callbacks(xs[i], ch)|
    requires xs[Callbacks(xs[i], ch)[k].child].status.Pending?
    ensures var cb := Callbacks(xs[i], ch)[k];
      var d := Drain(variant, xs, i, ch, k);
      var a := Apply(ch, cb.handler, Payload(xs[i], ch));
      d.thrown.None? ==> a.Normal? && d.heap[cb.child] == Settled(xs[cb.child], ch, a.result)
  {
    var r := Step(variant, xs, i, ch, k);
    DrainUnfold(variant, xs, i, ch, k);
    if r.thrown.None? {
      StepSettlesChild(variant, xs, i, ch, k);
      DrainFrozen(variant, r.heap, i, ch, k + 1, Callbacks(xs[i], ch)[k].child);
    }
  }

  /** A callback that does not throw leaves its pending child settled with the handler's result. */
  lemma StepSettlesChild(variant: Variant, xs: seq<Instance>, i: nat, ch: Channel, k: nat)
    requires Wired(xs) && i < |xs| && k < |Callbacks(xs[i], ch)|
    requires xs[Callbacks(xs[i], ch)[k].child].status.Pending?
    ensures var cb := Callbacks(xs[i], ch)[k];
      var r := Step(variant, xs, i, ch, k);
      var a := Apply(ch, cb.handler, Payload(xs[i], ch));
      r.thrown.None? ==> a.Normal? && r.heap[cb.child] == Settled(xs[cb.child], ch, a.result)
  {
  }

  /** Running the callback of one child leaves the child of another callback of the same list alone. */
  lemma SiblingUntouched(variant: Variant, xs: seq<Instance>, parent: seq<int>, i: nat, ch: Channel, j: nat, k: nat)
    requires Tree(xs, parent) && i < |xs| && j < |Callbacks(xs[i], ch)| && k < |Callbacks(xs[i], ch)| && j != k
    ensures var c := Callbacks(xs[i], ch)[k].child;
      Step(variant, xs, i, ch, j).heap[c] == xs[c]
  {
    var c1, c2 := Callbacks(xs[i], ch)[j].child, Callbacks(xs[i], ch)[k].child;
    TreeEdge(xs, parent, i, ch, k);
    if Desc(parent, c1, c2) {
      SiblingSubtrees(xs, parent, i, ch, j, k, c2);
    }
    StepFrame(variant, xs, parent, i, ch, j, c2);
  }

  /**
   * Nothing escapes a settlement unless a handler on the way throws (a default
   * rejection handler rethrows, or a non-function is called) or `notifyReject`
   * reaches its typo.
   */
  lemma {:induction false} SettleNoEscape(variant: Variant, xs: seq<Instance>, i: nat, ch: Channel, y: Value)
    requires Wired(xs) && i < |xs|
    requires Quiet(xs, ch) && !(variant.ObserverWithTwoStatus? && ch.Rejection?)
    ensures Settle(variant, xs, i, ch, y).thrown.None?
    decreases |xs| - i, 1, 0, 0
  {
    if xs[i].status.Pending? {
      var ys := xs[i := Settled(xs[i], ch, y)];
      QuietKept(xs, ys, ch);
      DrainNoEscape(variant, ys, i, ch, 0);
    }
  }

  lemma {:induction false} DrainNoEscape(variant: Variant, xs: seq<Instance>, i: nat, ch: Channel, k: nat)
    requires Wired(xs) && i < |xs| && k <= |Callbacks(xs[i], ch)|
    requires Quiet(xs, ch) && !(variant.ObserverWithTwoStatus? && ch.Rejection?)
    ensures Drain(variant, xs, i, ch, k).thrown.None?
    decreases |xs| - i, 0, |Callbacks(xs[i], ch)| - k, 1
  {
    if k < |Callbacks(xs[i], ch)| {
      var r := Step(variant, xs, i, ch, k);
      StepNoEscape(variant, xs, i, ch, k);
      DrainUnfold(variant, xs, i, ch, k);
      QuietKept(xs, r.heap, ch);
      DrainNoEscape(variant, r.heap, i, ch, k + 1);
    }
  }

  lemma QuietKept(xs: seq<Instance>, ys: seq<Instance>, ch: Channel)
    requires Quiet(xs, ch) && Shape(ys) == Shape(xs)
    ensures Quiet(ys, ch)
  {
    SameShape(xs, ys);
    forall i, k | 0 <= i < |ys| && 0 <= k < |Callbacks(ys[i], ch)|
      ensures !Throws(ch, Callbacks(ys[i], ch)[k].handler)
    {
      assert Callbacks(ys[i], ch) == Callbacks(xs[i], ch);
    }
  }

  lemma {:induction false} StepNoEscape(variant: Variant, xs: seq<Instance>, i: nat, ch: Channel, k: nat)
    requires Wired(xs) && i < |xs| && k < |Callbacks(xs[i], ch)|
    requires Quiet(xs, ch) && !(variant.ObserverWithTwoStatus? && ch.Rejection?)
    ensures Step(variant, xs, i, ch, k).thrown.None?
    decreases |xs| - i, 0, |Callbacks(xs[i], ch)| - k, 0
  {
    var cb := Callbacks(xs[i], ch)[k];
    assert !Throws(ch, cb.handler);
    var c := Apply(ch, cb.handler, Payload(xs[i], ch));
    SettleNoEscape(variant, xs, cb.child, ch, c.result);
  }

  /**
   * In `PromiseObserverWithTwoStatus`, `notifyReject` on a pending instance
   * stores the status and reason and then throws a ReferenceError: no
   * rejection callback ever runs and no other instance changes.
   */
  lemma NotifyRejectStopsAtTypo(xs: seq<Instance>, i: nat, e: Value)
    requires Wired(xs) && i < |xs| && xs[i].status.Pending?
    ensures Settle(ObserverWithTwoStatus, xs, i, Rejection, e)
         == Run(xs[i := xs[i].(status := Rejected, reason := e)], Some(ReferenceError))
  {
  }

  /**
   * In `PromiseMaybeWithTwoStatus`, a rejection reaching a default rejection
   * handler anywhere in the list makes `reject` throw: the `forEach` never
   * completes normally.
   */
  lemma DefaultRejectionEscapes(variant: Variant, xs: seq<Instance>, i: nat, e: Value, k: nat)
    requires Wired(xs) && i < |xs| && xs[i].status.Pending? && !variant.ObserverWithTwoStatus?
    requires k < |xs[i].onRejected| && xs[i].onRejected[k].handler.Default?
    ensures Settle(variant, xs, i, Rejection, e).thrown.Some?
  {
    DrainStopsAt(variant, xs[i := Settled(xs[i], Rejection, e)], i, Rejection, 0, k);
  }

  /**
   * In the classes without defaults, a callback made from a non-function
   * argument (`map(plus1)` leaves `onRejected` undefined) makes the settlement
   * that reaches it throw: an exception, the TypeError or one from an earlier
   * callback, escapes from `resolve`/`reject`.
   */
  lemma MissingHandlerEscapes(variant: Variant, xs: seq<Instance>, i: nat, ch: Channel, y: Value, k: nat)
    requires Wired(xs) && i < |xs| && xs[i].status.Pending? && !(variant.ObserverWithTwoStatus? && ch.Rejection?)
    requires k < |Callbacks(xs[i], ch)| && Callbacks(xs[i], ch)[k].handler.Missing?
    ensures Settle(variant, xs, i, ch, y).thrown.Some?
  {
    DrainStopsAt(variant, xs[i := Settled(xs[i], ch, y)], i, ch, 0, k);
  }

  lemma {:induction false} DrainStopsAt(variant: Variant, xs: seq<Instance>, i: nat, ch: Channel, j: nat, k: nat)
    requires Wired(xs) && i < |xs| && j <= k < |Callbacks(xs[i], ch)| && Throws(ch, Callbacks(xs[i], ch)[k].handler)
    ensures Drain(variant, xs, i, ch, j).thrown.Some?
    decreases k - j
  {
    var r := Step(variant, xs, i, ch, j);
    if r.thrown.None? && j < k {
      DrainStopsAt(variant, r.heap, i, ch, j + 1, k);
    }
  }

  /** One turn of the `forEach`: the callback runs, and the loop goes on unless it threw. */
  lemma DrainUnfold(variant: Variant, xs: seq<Instance>, i: nat, ch: Channel, k: nat)
    requires Wired(xs) && i < |xs| && k < |Callbacks(xs[i], ch)|
    ensures var r := Step(variant, xs, i, ch, k);
      && r.heap[i] == xs[i]
      && Drain(variant, xs, i, ch, k) == (if r.thrown.Some? then r else Drain(variant, r.heap, i, ch, k + 1))
  {
  }

  /** The heap right after the status guard let `ch` through on `i`, before any callback runs. */
  lemma SettledKeepsValid(variant: Variant, xs: seq<Instance>, parent: seq<int>, i: nat, ch: Channel, y: Value)
    requires Tree(xs, parent) && Linked(xs, parent) && i < |xs| && xs[i].status.Pending?
    requires parent[i] < 0 || !xs[parent[i]].status.Pending?
    ensures var ys := xs[i := Settled(xs[i], ch, y)];
      Tree(ys, parent) && Linked(ys, parent)
  {
    TreeKept(xs, xs[i := Settled(xs[i], ch, y)], parent);
  }

  /** A fresh instance whose settler is `p`'s callback keeps the heap well formed. */
  lemma FreshChildKeepsValid(xs: seq<Instance>, parent: seq<int>, p: nat)
    requires Tree(xs, parent) && Linked(xs, parent) && p < |xs|
    ensures var ys, ps := xs + [Fresh], parent + [p];
      Tree(ys, ps) && Linked(ys, ps)
  {
    var ys, ps := xs + [Fresh], parent + [p];
    forall i | 0 <= i < |ys|
      ensures Later(ys[i].onFulfilled, i, |ys|) && Later(ys[i].onRejected, i, |ys|)
      ensures Edges(ys[i].onFulfilled, i, ps) && Edges(ys[i].onRejected, i, ps)
    {
      if i < |xs| {
        assert ys[i] == xs[i];
      }
    }
  }

  /**
   * The heap after `map` on a pending `p`: a fresh child `|xs|`, settled by one
   * new callback on each list of `p` (`both` is false for the single-channel
   * classes, which have no rejection list).
   */
  function Pushed(xs: seq<Instance>, p: nat, onF: Handler, onR: Handler, both: bool): (ys: seq<Instance>)
    requires p < |xs|
    ensures |ys| == |xs| + 1 && ys[|xs|] == Fresh
    ensures forall m :: 0 <= m < |xs| && m != p ==> ys[m] == xs[m]
    ensures ys[p].status == xs[p].status && ys[p].value == xs[p].value && ys[p].reason == xs[p].reason
    ensures ys[p].onFulfilled == xs[p].onFulfilled + [Callback(onF, |xs|)]
    ensures ys[p].onRejected == xs[p].onRejected + (if both then [Callback(onR, |xs|)] else [])
  {
    var c := |xs|;
    (xs + [Fresh])[p := xs[p].(onFulfilled := xs[p].onFulfilled + [Callback(onF, c)],
                               onRejected := xs[p].onRejected + (if both then [Callback(onR, c)] else []))]
  }

  lemma PushKeepsTree(xs: seq<Instance>, parent: seq<int>, p: nat, onF: Handler, onR: Handler, both: bool)
    requires Tree(xs, parent) && p < |xs|
    ensures Tree(Pushed(xs, p, onF, onR, both), parent + [p])
  {
    var ys, ps := Pushed(xs, p, onF, onR, both), parent + [p];
    assert Later(xs[p].onFulfilled, p, |xs|) && Later(xs[p].onRejected, p, |xs|);
    forall i | 0 <= i < |ys|
      ensures Later(ys[i].onFulfilled, i, |ys|) && Later(ys[i].onRejected, i, |ys|)
      ensures Edges(ys[i].onFulfilled, i, ps) && Edges(ys[i].onRejected, i, ps)
    {
      if i != p && i < |xs| {
        assert Later(xs[i].onFulfilled, i, |xs|) && Later(xs[i].onRejected, i, |xs|);
      }
    }
  }

  lemma PushKeepsLinked(xs: seq<Instance>, parent: seq<int>, p: nat, onF: Handler, onR: Handler, both: bool)
    requires |parent| == |xs| && Ordered(parent) && Linked(xs, parent) && p < |xs| && xs[p].status.Pending?
    ensures Linked(Pushed(xs, p, onF, onR, both), parent + [p])
  {
    var ys, ps := Pushed(xs, p, onF, onR, both), parent + [p];
    forall m | 0 <= m < |ys| && 0 <= ps[m] < |ys| && ys[ps[m]].status.Pending?
      ensures ys[m].status.Pending?
    {
      if m < |xs| {
        var q := parent[m];
        assert ps[m] == q && 0 <= q < |xs|;
        assert ys[q].status == xs[q].status by {
          if q != p { assert ys[q] == xs[q]; }
        }
        assert xs[m].status.Pending?;
        assert ys[m].status == xs[m].status by {
          if m != p { assert ys[m] == xs[m]; }
        }
      }
    }
  }

  /**
   * All instances of one of the guarded classes. `parent` is proof bookkeeping:
   * the instance whose callbacks settle each one, -1 for those the user created.
   */
  class Heap {
    const variant: Variant
    var nodes: seq<Instance>
    ghost var parent: seq<int>

    ghost predicate Valid()
      reads this
    {
      Tree(nodes, parent) && Linked(nodes, parent)
    }

    constructor(variant: Variant)
      ensures Valid() && this.variant == variant && nodes == []
    {
      this.variant := variant;
      nodes := [];
      parent := [];
    }

    /**
     * `new C(executor)` with a user executor: a fresh pending instance. What the
     * executor later does with `resolve`/`reject` is a call of `Resolve` or
     * `Reject` on the returned instance.
     */
    method New() returns (p: nat)
      requires Valid()
      modifies this
      ensures Valid() && parent == old(parent) + [-1]
      ensures p == |old(nodes)| && nodes == old(nodes) + [Fresh]
    {
      p := |nodes|;
      nodes := nodes + [Fresh];
      parent := parent + [-1];
    }

    /**
     * `map(onFulfilled, onRejected)` on instance `p`; `subscribe(fn)` and the
     * one-handler `map(fn)` are `Map(p, fn, fn)`. Only
     * `PromiseMaybeWithTwoStatus` puts defaults in place of non-function
     * arguments. The child is `c`; when `thrown` is set, `map` threw instead of
     * returning it.
     */
    method Map(p: nat, onFulfilled: Argument, onRejected: Argument) returns (c: nat, thrown: Option<Value>)
      requires Valid() && p < |nodes|
      modifies this
      ensures Valid() && parent == old(parent) + [p] && c == |old(nodes)|
      ensures Run(nodes, thrown) == Mapped(variant, old(nodes), p, Substitute(variant, onFulfilled), Substitute(variant, onRejected))
    {
      var onF, onR := Substitute(variant, onFulfilled), Substitute(variant, onRejected);
      c := |nodes|;
      FreshChildKeepsValid(nodes, parent, p);
      nodes := nodes + [Fresh];
      parent := parent + [p];
      if nodes[p].status.Fulfilled? {
        var a := Apply(Fulfilment, onF, nodes[p].value);
        if a.Thrown? {
          thrown := Some(a.error);
        } else {
          thrown := SettleAt(c, Fulfilment, a.result);
        }
      } else if nodes[p].status.Rejected? {
        var a := Apply(Rejection, onR, nodes[p].reason);
        if a.Thrown? {
          thrown := Some(a.error);
        } else {
          thrown := SettleAt(c, Rejection, a.result);
        }
      } else {
        var rejections := nodes[p].onRejected + (if variant.WithStatus? then [] else [Callback(onR, c)]);
        nodes := nodes[p := nodes[p].(onFulfilled := nodes[p].onFulfilled + [Callback(onF, c)], onRejected := rejections)];
        thrown := None;
        ghost var both := !variant.WithStatus?;
        assert nodes == Pushed(old(nodes), p, onF, onR, both);
        PushKeepsTree(old(nodes), old(parent), p, onF, onR, both);
        PushKeepsLinked(old(nodes), old(parent), p, onF, onR, both);
      }
    }

    /** `resolve(y)` (`notify`, `notifyResolve`) held by the creator of root instance `i`. */
    method Resolve(i: nat, y: Value) returns (thrown: Option<Value>)
      requires Valid() && i < |nodes| && parent[i] < 0
      modifies this
      ensures Valid() && parent == old(parent)
      ensures Run(nodes, thrown) == Settle(variant, old(nodes), i, Fulfilment, y)
      ensures Quiet(old(nodes), Fulfilment) ==> thrown == None
    {
      if Quiet(nodes, Fulfilment) {
        SettleNoEscape(variant, nodes, i, Fulfilment, y);
      }
      thrown := SettleAt(i, Fulfilment, y);
    }

    /** `reject(y)` (`notifyReject`) held by the creator of root instance `i`; the single-channel classes have none. */
    method Reject(i: nat, y: Value) returns (thrown: Option<Value>)
      requires Valid() && i < |nodes| && parent[i] < 0 && !variant.WithStatus?
      modifies this
      ensures Valid() && parent == old(parent)
      ensures Run(nodes, thrown) == Settle(variant, old(nodes), i, Rejection, y)
    {
      thrown := SettleAt(i, Rejection, y);
    }

    /**
     * The body shared by `resolve` and `reject`: the status guard, the payload,
     * then the `forEach` over the matching list, which an exception ends.
     */
    method SettleAt(i: nat, ch: Channel, y: Value) returns (thrown: Option<Value>)
      requires Valid() && i < |nodes|
      requires parent[i] < 0 || !nodes[parent[i]].status.Pending?
      modifies this
      ensures Valid() && parent == old(parent)
      ensures Run(nodes, thrown) == Settle(variant, old(nodes), i, ch, y)
      decreases |nodes| - i, 1
    {
      if !nodes[i].status.Pending? {
        return None;
      }
      SettledKeepsValid(variant, nodes, parent, i, ch, y);
      nodes := nodes[i := Settled(nodes[i], ch, y)];
      if variant.ObserverWithTwoStatus? && ch.Rejection? {
        return Some(ReferenceError);
      }
      var k := 0;
      while k < |Callbacks(nodes[i], ch)|
        invariant Valid() && parent == old(parent)
        invariant k <= |Callbacks(nodes[i], ch)| && !nodes[i].status.Pending?
        invariant Drain(variant, nodes, i, ch, k) == Settle(variant, old(nodes), i, ch, y)
        decreases |Callbacks(nodes[i], ch)| - k
      {
        DrainUnfold(variant, nodes, i, ch, k);
        thrown := RunCallback(i, ch, k);
        if thrown.Some? {
          return;
        }
        k := k + 1;
      }
      return None;
    }

    /** The arrow function `forEach` calls for the `k`-th callback of `i`: apply its handler, then settle its child. */
    method RunCallback(i: nat, ch: Channel, k: nat) returns (thrown: Option<Value>)
      requires Valid() && i < |nodes| && !nodes[i].status.Pending? && k < |Callbacks(nodes[i], ch)|
      modifies this
      ensures Valid() && parent == old(parent)
      ensures Run(nodes, thrown) == Step(variant, old(nodes), i, ch, k)
      decreases |nodes| - i, 0
    {
      var cb := Callbacks(nodes[i], ch)[k];
      var c := Apply(ch, cb.handler, Payload(nodes[i], ch));
      if c.Thrown? {
        return Some(c.error);
      }
      TreeEdge(nodes, parent, i, ch, k);
      thrown := SettleAt(cb.child, ch, c.result);
    }
  }
}
