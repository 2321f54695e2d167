/**
 * The chains the teaching variants build: every `map`/`subscribe` creates a
 * child whose only settler is a callback stored on its parent, so instances form
 * a forest in creation order. `parent[m]` is the instance whose callback settles
 * `m` (-1 for an instance the user created), and always precedes `m`.
 */
module Ancestry {

  ghost predicate Ordered(parent: seq<int>)
  {
    forall m :: 0 <= m < |parent| ==> parent[m] < m
  }

  /** `m` is `j` or lies below it. */
  ghost predicate Desc(parent: seq<int>, j: int, m: int)
    decreases m
  {
    0 <= j <= m < |parent| && (m == j || (0 <= parent[m] < m && Desc(parent, j, parent[m])))
  }

  lemma {:induction false} DescTrans(parent: seq<int>, a: int, b: int, m: int)
    requires Desc(parent, a, b) && Desc(parent, b, m)
    ensures Desc(parent, a, m)
    decreases m
  {
    if m != b {
      DescTrans(parent, a, b, parent[m]);
    }
  }

  /** The ancestors of a node form a chain: two of them are always related. */
  lemma {:induction false} AncestorsChain(parent: seq<int>, a: int, b: int, m: int)
    requires Desc(parent, a, m) && Desc(parent, b, m)
    ensures Desc(parent, a, b) || Desc(parent, b, a)
    decreases m
  {
    if m != a && m != b {
      AncestorsChain(parent, a, b, parent[m]);
    }
  }

  /** Distinct children of one parent have disjoint subtrees, neither of which holds the parent. */
  lemma SiblingsDisjoint(parent: seq<int>, j: int, c1: int, c2: int, m: int)
    requires 0 <= j < c1 < |parent| && 0 <= j < c2 < |parent| && c1 != c2
    requires parent[c1] == j && parent[c2] == j
    requires Desc(parent, c1, m)
    ensures !Desc(parent, c2, m) && !Desc(parent, m, j)
  {
    if Desc(parent, c2, m) {
      AncestorsChain(parent, c1, c2, m);
      assert false;
    }
  }

  /** A child's subtree lies inside its parent's. */
  lemma ChildSubtree(parent: seq<int>, j: int, c: int, m: int)
    requires 0 <= j < c < |parent| && parent[c] == j && Desc(parent, c, m)
    ensures Desc(parent, j, m)
  {
    DescTrans(parent, j, c, m);
  }
}
