/** Majorities, and when two of them must share a member. */
module Quorums {

  /** `count >= total/2 + 1`, as the source writes it, over `part` inside `all`. */
  ghost predicate Majority<T>(all: set<T>, part: set<T>) {
    part <= all && |part| >= |all| / 2 + 1
  }

  lemma UnionSize<T>(p: set<T>, q: set<T>)
    requires p !! q
    ensures |p + q| == |p| + |q|
  {
  }

  lemma SubsetSize<T>(p: set<T>, q: set<T>)
    requires p <= q
    ensures |p| <= |q|
  {
    assert q == p + (q - p);
    UnionSize(p, q - p);
  }

  /** Two majorities of the same membership share a node. */
  lemma Overlap<T>(all: set<T>, p: set<T>, q: set<T>) returns (x: T)
    requires Majority(all, p) && Majority(all, q)
    ensures x in p && x in q
  {
    if p !! q {
      UnionSize(p, q);
      SubsetSize(p + q, all);
      assert false;
    }
    x :| x in p && x in q;
  }

  /** ... and so do majorities of two memberships that differ by one node. */
  lemma OverlapAcrossOneChange<T>(all: set<T>, extra: T, p: set<T>, q: set<T>) returns (x: T)
    requires extra !in all
    requires Majority(all, p) && Majority(all + {extra}, q)
    ensures x in p && x in q
  {
    UnionSize(all, {extra});
    if p !! q {
      UnionSize(p, q);
      SubsetSize(p + q, all + {extra});
      assert false;
    }
    x :| x in p && x in q;
  }
}
