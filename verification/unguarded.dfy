/**
 * `PromiseFunctor` (src/sections/Functor/PromiseFunctor.js) and its twin
 * `PromiseObserver` (src/sections/Observer/PromiseObserver.js), which differ
 * only in names (`map`/`subscribe`, `resolve`/`notify`): there is no status, so
 * every `resolve` overwrites `value` and runs every callback again.
 */
module Unguarded {
  import opened Values
  import opened Ancestry

  /** `() => resolve(fn(this.value))`, where `resolve` settles instance `child`. */
  datatype Callback = Callback(fn: Value -> Value, child: nat)

  datatype Instance = Instance(value: Value, callbacks: seq<Callback>)

  /**
   * Every callback settles a later instance, no two callbacks of one instance
   * settle the same child, and `parent` names the instance whose callback settles
   * each child.
   */
  ghost predicate Tree(xs: seq<Instance>, parent: seq<int>)
  {
    && |parent| == |xs| && Ordered(parent)
    && (forall i, k :: 0 <= i < |xs| && 0 <= k < |xs[i].callbacks| ==>
          i < xs[i].callbacks[k].child < |xs| && parent[xs[i].callbacks[k].child] == i)
    && (forall i, k1, k2 :: 0 <= i < |xs| && 0 <= k1 < k2 < |xs[i].callbacks| ==>
          xs[i].callbacks[k1].child != xs[i].callbacks[k2].child)
  }

  ghost predicate Wired(xs: seq<Instance>)
  {
    forall i, k :: 0 <= i < |xs| && 0 <= k < |xs[i].callbacks| ==> i < xs[i].callbacks[k].child < |xs|
  }

  /** `resolve(v)` on instance `i`: store `v`, then run the callbacks in push order. */
  function Resolved(xs: seq<Instance>, i: nat, v: Value): (r: seq<Instance>)
    requires Wired(xs) && i < |xs|
    ensures |r| == |xs| && r[i].value == v
    ensures forall m :: 0 <= m < |xs| ==> r[m].callbacks == xs[m].callbacks
    ensures forall m :: 0 <= m < i ==> r[m] == xs[m]
    decreases |xs| - i, 1, 0
  {
    RunCallbacks(xs[i := xs[i].(value := v)], i, 0)
  }

  /** The `forEach` over the callbacks of `i`, from the `k`-th on. */
  function RunCallbacks(xs: seq<Instance>, i: nat, k: nat): (r: seq<Instance>)
    requires Wired(xs) && i < |xs| && k <= |xs[i].callbacks|
    ensures |r| == |xs| && r[i] == xs[i]
    ensures forall m :: 0 <= m < |xs| ==> r[m].callbacks == xs[m].callbacks
    ensures forall m :: 0 <= m < i ==> r[m] == xs[m]
    decreases |xs| - i, 0, |xs[i].callbacks| - k
  {
    if k == |xs[i].callbacks| then xs
    else
      var cb := xs[i].callbacks[k];
      RunCallbacks(Resolved(xs, cb.child, cb.fn(xs[i].value)), i, k + 1)
  }

  /** Storing a value changes no callback, so the heap keeps its shape. */
  lemma ValueKeepsTree(xs: seq<Instance>, parent: seq<int>, i: nat, v: Value)
    requires Tree(xs, parent) && i < |xs|
    ensures Tree(xs[i := xs[i].(value := v)], parent)
  {
  }

  /** One turn of the `forEach`: resolve the child of the `k`-th callback, then go on. */
  lemma RunCallbacksUnfold(xs: seq<Instance>, i: nat, k: nat)
    requires Wired(xs) && i < |xs| && k < |xs[i].callbacks|
    ensures var cb := xs[i].callbacks[k];
      var ys := Resolved(xs, cb.child, cb.fn(xs[i].value));
      ys[i] == xs[i] && RunCallbacks(xs, i, k) == RunCallbacks(ys, i, k + 1)
  {
  }

  /** Only `i` and the instances below it change when `i` resolves. */
  lemma {:induction false} ResolveFrame(xs: seq<Instance>, parent: seq<int>, i: nat, v: Value, m: nat)
    requires Tree(xs, parent) && i < |xs| && m < |xs| && !Desc(parent, i, m)
    ensures Resolved(xs, i, v)[m] == xs[m]
    decreases |xs| - i, 1, 0
  {
    var ys := xs[i := xs[i].(value := v)];
    assert Tree(ys, parent);
    forall j | 0 <= j < |ys[i].callbacks|
      ensures !Desc(parent, ys[i].callbacks[j].child, m)
    {
      if Desc(parent, ys[i].callbacks[j].child, m) {
        ChildSubtree(parent, i, ys[i].callbacks[j].child, m);
      }
    }
    RunCallbacksFrame(ys, parent, i, 0, m);
  }

  /** The callbacks from the `k`-th on change only the subtrees of their children. */
  lemma {:induction false} RunCallbacksFrame(xs: seq<Instance>, parent: seq<int>, i: nat, k: nat, m: nat)
    requires Tree(xs, parent) && i < |xs| && k <= |xs[i].callbacks| && m < |xs|
    requires forall j :: k <= j < |xs[i].callbacks| ==> !Desc(parent, xs[i].callbacks[j].child, m)
    ensures RunCallbacks(xs, i, k)[m] == xs[m]
    decreases |xs| - i, 0, |xs[i].callbacks| - k
  {
    if k < |xs[i].callbacks| {
      var cb := xs[i].callbacks[k];
      var zs := Resolved(xs, cb.child, cb.fn(xs[i].value));
      ResolveFrame(xs, parent, cb.child, cb.fn(xs[i].value), m);
      assert Tree(zs, parent);
      RunCallbacksFrame(zs, parent, i, k + 1, m);
    }
  }

  /** The subtrees of two different callbacks' children do not overlap. */
  lemma SiblingSubtrees(xs: seq<Instance>, parent: seq<int>, i: nat, j: nat, l: nat, m: nat)
    requires Tree(xs, parent) && i < |xs| && j < l < |xs[i].callbacks|
    requires Desc(parent, xs[i].callbacks[j].child, m)
    ensures !Desc(parent, xs[i].callbacks[l].child, m)
  {
    var c1, c2 := xs[i].callbacks[j].child, xs[i].callbacks[l].child;
    assert i < c1 < |parent| && parent[c1] == i;
    assert i < c2 < |parent| && parent[c2] == i;
    SiblingsDisjoint(parent, i, c1, c2, m);
  }

  /** Once the `j`-th callback has run, later callbacks of the same instance leave its child's subtree alone. */
  lemma LaterCallbacksSpare(xs: seq<Instance>, parent: seq<int>, i: nat, j: nat, m: nat)
    requires Tree(xs, parent) && i < |xs| && j < |xs[i].callbacks| && m < |xs|
    requires Desc(parent, xs[i].callbacks[j].child, m)
    ensures RunCallbacks(xs, i, j + 1)[m] == xs[m]
  {
    forall l | j + 1 <= l < |xs[i].callbacks|
      ensures !Desc(parent, xs[i].callbacks[l].child, m)
    {
      SiblingSubtrees(xs, parent, i, j, l, m);
    }
    RunCallbacksFrame(xs, parent, i, j + 1, m);
  }

  /** After `resolve(v)` on `i`, the child of its `k`-th callback holds `fn(v)`. */
  lemma ChildHolds(xs: seq<Instance>, parent: seq<int>, i: nat, v: Value, k: nat)
    requires Tree(xs, parent) && i < |xs| && k < |xs[i].callbacks|
    ensures var cb := xs[i].callbacks[k];
      Resolved(xs, i, v)[cb.child].value == cb.fn(v)
  {
    var ys := xs[i := xs[i].(value := v)];
    assert Tree(ys, parent);
    RunCallbacksReachChild(ys, parent, i, 0, k);
  }

  lemma {:induction false} RunCallbacksReachChild(xs: seq<Instance>, parent: seq<int>, i: nat, j: nat, k: nat)
    requires Tree(xs, parent) && i < |xs| && j <= k < |xs[i].callbacks|
    ensures var cb := xs[i].callbacks[k];
      RunCallbacks(xs, i, j)[cb.child].value == cb.fn(xs[i].value)
    decreases k - j
  {
    var cb := xs[i].callbacks[j];
    var zs := Resolved(xs, cb.child, cb.fn(xs[i].value));
    assert Tree(zs, parent);
    if j == k {
      LaterCallbacksSpare(zs, parent, i, k, cb.child);
    } else {
      RunCallbacksReachChild(zs, parent, i, j + 1, k);
    }
  }

  /**
   * Chained maps compose: if `c` is mapped from `i` with `f` and `d` from `c` with
   * `g`, resolving `i` with `v` leaves `g(f(v))` in `d`.
   */
  lemma ChainComposes(xs: seq<Instance>, parent: seq<int>, i: nat, v: Value, k: nat, k': nat)
    requires Tree(xs, parent) && i < |xs| && k < |xs[i].callbacks|
    requires k' < |xs[xs[i].callbacks[k].child].callbacks|
    ensures var cb := xs[i].callbacks[k];
      var cb' := xs[cb.child].callbacks[k'];
      Resolved(xs, i, v)[cb'.child].value == cb'.fn(cb.fn(v))
  {
    var ys := xs[i := xs[i].(value := v)];
    assert Tree(ys, parent);
    RunCallbacksReachGrandchild(ys, parent, i, 0, k, k');
  }

  lemma {:induction false} RunCallbacksReachGrandchild(xs: seq<Instance>, parent: seq<int>, i: nat, j: nat, k: nat, k': nat)
    requires Tree(xs, parent) && i < |xs| && j <= k < |xs[i].callbacks|
    requires k' < |xs[xs[i].callbacks[k].child].callbacks|
    ensures var cb := xs[i].callbacks[k];
      var cb' := xs[cb.child].callbacks[k'];
      RunCallbacks(xs, i, j)[cb'.child].value == cb'.fn(cb.fn(xs[i].value))
    decreases k - j
  {
    var cb := xs[i].callbacks[j];
    var zs := Resolved(xs, cb.child, cb.fn(xs[i].value));
    assert Tree(zs, parent);
    if j == k {
      var d := xs[cb.child].callbacks[k'].child;
      ChildHolds(xs, parent, cb.child, cb.fn(xs[i].value), k');
      assert Desc(parent, cb.child, d);
      LaterCallbacksSpare(zs, parent, i, k, d);
    } else {
      RunCallbacksReachGrandchild(zs, parent, i, j + 1, k, k');
    }
  }

  /** `resolve` may be called again: a second `resolve(w)` re-runs the callbacks, so the child now holds `fn(w)`. */
  lemma ResolveAgainRefires(xs: seq<Instance>, parent: seq<int>, i: nat, v: Value, w: Value, k: nat)
    requires Tree(xs, parent) && i < |xs| && k < |xs[i].callbacks|
    ensures var cb := xs[i].callbacks[k];
      var again := Resolved(Resolved(xs, i, v), i, w);
      again[i].value == w && again[cb.child].value == cb.fn(w)
  {
    var ys := Resolved(xs, i, v);
    assert Tree(ys, parent);
    ChildHolds(ys, parent, i, w, k);
  }

  /**
   * All instances created so far. `parent` is proof bookkeeping: the instance
   * whose callback settles each one, -1 for those the user created.
   */
  class Heap {
    var nodes: seq<Instance>
    ghost var parent: seq<int>

    ghost predicate Valid()
      reads this
    {
      Tree(nodes, parent)
    }

    constructor()
      ensures Valid() && nodes == []
    {
      nodes := [];
      parent := [];
    }

    /**
     * `new PromiseFunctor(executor)` with a user executor: a fresh instance with no
     * value and no callbacks. The executor's later calls of `resolve` are calls of
     * `Resolve` on the returned instance.
     */
    method New() returns (p: nat)
      requires Valid()
      modifies this
      ensures Valid() && parent == old(parent) + [-1]
      ensures p == |old(nodes)| && nodes == old(nodes) + [Instance(Undefined, [])]
    {
      p := |nodes|;
      nodes := nodes + [Instance(Undefined, [])];
      parent := parent + [-1];
    }

    /**
     * `map(fn)` on instance `p`: the child starts with no value, and the only thing
     * that happens to `p` is one more callback at the end of its list.
     */
    method Map(p: nat, fn: Value -> Value) returns (c: nat)
      requires Valid() && p < |nodes|
      modifies this
      ensures Valid() && parent == old(parent) + [p]
      ensures c == |old(nodes)|
      ensures nodes == old(nodes)[p := Instance(old(nodes)[p].value, old(nodes)[p].callbacks + [Callback(fn, c)])]
                       + [Instance(Undefined, [])]
    {
      c := |nodes|;
      nodes := nodes[p := nodes[p].(callbacks := nodes[p].callbacks + [Callback(fn, c)])] + [Instance(Undefined, [])];
      parent := parent + [p];
    }

    /** `resolve(v)` on instance `i`: store `v`, then call every callback in push order. */
    method Resolve(i: nat, v: Value)
      requires Valid() && i < |nodes|
      modifies this
      ensures Valid() && parent == old(parent)
      ensures nodes == Resolved(old(nodes), i, v)
      decreases |nodes| - i, 1
    {
      ValueKeepsTree(nodes, parent, i, v);
      nodes := nodes[i := nodes[i].(value := v)];
      var k := 0;
      while k < |nodes[i].callbacks|
        invariant Valid() && parent == old(parent) && |nodes| == |old(nodes)|
        invariant k <= |nodes[i].callbacks|
        invariant RunCallbacks(nodes, i, k) == Resolved(old(nodes), i, v)
        decreases |nodes[i].callbacks| - k
      {
        var cb := nodes[i].callbacks[k];
        RunCallbacksUnfold(nodes, i, k);
        Resolve(cb.child, cb.fn(nodes[i].value));
        k := k + 1;
      }
    }
  }
}
