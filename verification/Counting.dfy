/** What the commit scan computes, and which quorums must meet. */
module Counting {
  import opened Types
  import opened Quorums
  import opened Server
  import opened Cluster
  import opened Offices

  // ------------------------------------------------- counting and order statistics

  /** The peers' match indices, in list order. */
  function Matches(peers: seq<NodeId>, m: map<NodeId, nat>): (r: seq<nat>)
    ensures |r| == |peers|
  {
    if peers == [] then [] else Matches(peers[..|peers| - 1], m) + [Get(m, peers[|peers| - 1])]
  }

  /** The leader's last index and its peers' match indices. */
  function Values(s: Server): seq<nat> { [Last(s)] + Matches(s.peers, s.matchIndex) }

  function AtLeast(vs: seq<nat>, n: nat): nat {
    if vs == [] then 0 else AtLeast(vs[..|vs| - 1], n) + if vs[|vs| - 1] >= n then 1 else 0
  }

  ghost predicate Descends(vs: seq<nat>) {
    forall i, j :: 0 <= i < j < |vs| ==> vs[i] >= vs[j]
  }

  function Insert(vs: seq<nat>, v: nat): (r: seq<nat>)
    ensures |r| == |vs| + 1
  {
    if vs == [] || vs[|vs| - 1] >= v then vs + [v] else Insert(vs[..|vs| - 1], v) + [vs[|vs| - 1]]
  }

  /** The values from largest to smallest. */
  function Sorted(vs: seq<nat>): (r: seq<nat>)
    ensures |r| == |vs|
  {
    if vs == [] then [] else Insert(Sorted(vs[..|vs| - 1]), vs[|vs| - 1])
  }

  lemma {:induction false} InsertBound(vs: seq<nat>, v: nat, b: nat)
    requires v >= b && forall j :: 0 <= j < |vs| ==> vs[j] >= b
    ensures forall k :: 0 <= k < |Insert(vs, v)| ==> Insert(vs, v)[k] >= b
  {
    if vs != [] && vs[|vs| - 1] < v { InsertBound(vs[..|vs| - 1], v, b); }
  }

  lemma {:induction false} InsertSorts(vs: seq<nat>, v: nat)
    requires Descends(vs)
    ensures Descends(Insert(vs, v)) && multiset(Insert(vs, v)) == multiset(vs) + multiset{v}
  {
    if vs != [] && vs[|vs| - 1] < v {
      var front := vs[..|vs| - 1];
      InsertSorts(front, v);
      InsertBound(front, v, vs[|vs| - 1]);
      assert vs == front + [vs[|vs| - 1]];
    }
  }

  lemma {:induction false} InsertCounts(vs: seq<nat>, v: nat, n: nat)
    ensures AtLeast(Insert(vs, v), n) == AtLeast(vs, n) + if v >= n then 1 else 0
  {
    if vs != [] && vs[|vs| - 1] < v {
      var front := vs[..|vs| - 1];
      InsertCounts(front, v, n);
      assert Insert(vs, v)[..|vs|] == Insert(front, v);
    } else {
      assert (vs + [v])[..|vs|] == vs;
    }
  }

  /** Sorting is a descending permutation. */
  lemma {:induction false} SortedFacts(vs: seq<nat>)
    ensures Descends(Sorted(vs)) && multiset(Sorted(vs)) == multiset(vs)
  {
    if vs != [] {
      var front := vs[..|vs| - 1];
      SortedFacts(front);
      hide Insert;
      InsertSorts(Sorted(front), vs[|vs| - 1]);
      assert vs == front + [vs[|vs| - 1]];
    }
  }

  lemma {:induction false} SortedCounts(vs: seq<nat>, n: nat)
    ensures AtLeast(Sorted(vs), n) == AtLeast(vs, n)
  {
    if vs != [] {
      var front := vs[..|vs| - 1];
      SortedCounts(front, n);
      hide Insert;
      InsertCounts(Sorted(front), vs[|vs| - 1], n);
    }
  }

  lemma {:induction false} CountInOrder(vs: seq<nat>, n: nat, k: nat)
    requires Descends(vs) && 1 <= k <= |vs|
    ensures AtLeast(vs, n) >= k <==> vs[k - 1] >= n
    ensures AtLeast(vs, n) <= |vs|
  {
    if |vs| > 1 {
      var front := vs[..|vs| - 1];
      CountInOrder(front, n, Min(k, |front|));
      CountInOrder(front, n, |front|);
    } else {
      assert AtLeast(vs[..0], n) == 0;
    }
  }

  /** At least k values reach n exactly when the k-th largest does. */
  lemma {:induction false} KthLargest(vs: seq<nat>, n: nat, k: nat)
    requires 1 <= k <= |vs|
    ensures AtLeast(vs, n) >= k <==> Sorted(vs)[k - 1] >= n
  {
    SortedFacts(vs);
    SortedCounts(vs, n);
    hide Sorted, AtLeast;
    CountInOrder(Sorted(vs), n, k);
  }

  // ------------------------------------------------------------ the commit scan

  lemma {:induction false} BelievedCount(peers: seq<NodeId>, m: map<NodeId, nat>, n: nat)
    ensures |Believed(peers, m, n)| == AtLeast(Matches(peers, m), n)
  {
    if peers != [] {
      var front := peers[..|peers| - 1];
      BelievedCount(front, m, n);
      assert Matches(peers, m)[..|front|] == Matches(front, m);
    }
  }

  lemma {:induction false} CountWithFirst(v: nat, vs: seq<nat>, n: nat)
    ensures AtLeast([v] + vs, n) == AtLeast(vs, n) + if v >= n then 1 else 0
  {
    if vs == [] {
      assert ([v] + vs)[..0] == [];
    } else {
      CountWithFirst(v, vs[..|vs| - 1], n);
      assert ([v] + vs)[..|vs|] == [v] + vs[..|vs| - 1];
    }
  }

  /** The majority-th largest of the leader's last index and its peers' match indices, within the log. */
  function QuorumIndex(s: Server): (c: nat)
    ensures c <= Last(s)
  {
    Min(Last(s), Sorted(Values(s))[Quorum(s) - 1])
  }

  lemma HoldersReach(s: Server, n: nat)
    requires n <= Last(s)
    ensures Holders(s, n) >= Quorum(s) <==> n <= QuorumIndex(s)
  {
    BelievedCount(s.peers, s.matchIndex, n);
    CountWithFirst(Last(s), Matches(s.peers, s.matchIndex), n);
    KthLargest(Values(s), n, Quorum(s));
  }

  ghost predicate TermsAscend(log: seq<Entry>) {
    forall i, j :: 0 <= i < j < |log| ==> log[i].term <= log[j].term
  }

  ghost predicate CanCount(s: Server) {
    && s.role == Leader && Shape(s.log, s.base) && s.base <= s.commitIndex && TermsAscend(s.log)
    && LastTerm(s.log) <= s.term
  }

  lemma {:induction false} ScanFrom(s: Server, n: nat)
    requires CanCount(s) && n <= Last(s)
    ensures var c := QuorumIndex(s);
            CommitScan(s, n) == if s.commitIndex < c <= n && EntryAt(s.log, s.base, c).value.term == s.term then c
                                else CommitScan(s, Min(n, c))
  {
    hide QuorumIndex;
    if n > s.commitIndex {
      HoldersReach(s, n);
      ScanFrom(s, n - 1);
    }
  }

  /** Below an entry of an older term nothing is of the current one. */
  lemma {:induction false} ScanOlder(s: Server, n: nat)
    requires CanCount(s) && n <= Last(s) && (n > s.commitIndex ==> EntryAt(s.log, s.base, n).value.term != s.term)
    ensures CommitScan(s, n) == s.commitIndex
  {
    if n > s.commitIndex { ScanOlder(s, n - 1); }
  }

  /** The scan commits the majority-th largest index if it is new and of the current term, and nothing otherwise. */
  lemma CommitIsOrderStatistic(s: Server)
    requires CanCount(s)
    ensures var c := QuorumIndex(s);
            UpdateCommit(s).commitIndex == if c > s.commitIndex && EntryAt(s.log, s.base, c).value.term == s.term then c
              else s.commitIndex
  {
    hide QuorumIndex;
    var c := QuorumIndex(s);
    ScanFrom(s, Last(s));
    if !(c > s.commitIndex && EntryAt(s.log, s.base, c).value.term == s.term) { ScanOlder(s, Min(Last(s), c)); }
  }

  // -------------------------------------------------------- quorums that must meet

  ghost function Members(s: Server): set<NodeId> { Elems(s.peers) + {s.id} }

  /** The peer list has no repeats and does not name the node itself. */
  ghost predicate CleanPeers(s: Server) { NoRepeats(s.peers) && s.id !in s.peers }

  /** The voters or holders a node counts as enough. */
  ghost predicate IsQuorum(s: Server, q: set<NodeId>) { q <= Members(s) && |q| >= Quorum(s) }

  lemma ListQuorumIsMajority(s: Server, q: set<NodeId>)
    requires CleanPeers(s)
    ensures IsQuorum(s, q) <==> Majority(Members(s), q)
  {
    ElemsSize(s.peers);
    UnionSize(Elems(s.peers), {s.id});
  }

  /** The two memberships are equal, or one has a single node more. */
  ghost predicate OneStepApart(a: set<NodeId>, b: set<NodeId>) {
    a == b || (exists x :: x !in a && b == a + {x}) || (exists x :: x !in b && a == b + {x})
  }

  /** A quorum of one node's peer list and one of another's meet when the lists are at most one step apart. */
  lemma QuorumsMeet(s: Server, u: Server, p: set<NodeId>, q: set<NodeId>) returns (x: NodeId)
    requires CleanPeers(s) && CleanPeers(u) && IsQuorum(s, p) && IsQuorum(u, q) && OneStepApart(Members(s), Members(u))
    ensures x in p && x in q
  {
    ListQuorumIsMajority(s, p);
    ListQuorumIsMajority(u, q);
    var a, b := Members(s), Members(u);
    if a == b {
      x := Overlap(a, p, q);
    } else if y :| y !in a && b == a + {y} {
      x := OverlapAcrossOneChange(a, y, p, q);
    } else {
      var y :| y !in b && a == b + {y};
      x := OverlapAcrossOneChange(b, y, q, p);
    }
  }

  lemma {:induction false} WithoutFacts(peers: seq<NodeId>, x: NodeId)
    ensures forall z :: z in Without(peers, x) <==> z in peers && z != x
    ensures NoRepeats(peers) ==> NoRepeats(Without(peers, x))
  {
    if peers != [] {
      var front, y := peers[..|peers| - 1], peers[|peers| - 1];
      WithoutFacts(front, x);
      assert peers == front + [y];
      if NoRepeats(peers) { assert y !in front && NoRepeats(front); }
    }
  }

  /** Applying a change of another node keeps the list clean and moves the membership by one step at most. */
  lemma ChangeIsOneStep(s: Server, isAdd: bool, x: NodeId)
    requires CleanPeers(s) && x != s.id
    ensures var w := ApplyConfig(s, isAdd, x);
            CleanPeers(w) && Members(w) == (if isAdd then Members(s) + {x} else Members(s) - {x})
              && OneStepApart(Members(s), Members(w))
  {
    var w := ApplyConfig(s, isAdd, x);
    WithoutFacts(s.peers, x);
    if isAdd {
      assert x !in s.peers ==> Elems(s.peers + [x]) == Elems(s.peers) + {x};
      if x !in Members(s) { assert Members(w) == Members(s) + {x}; }
    } else {
      assert Elems(w.peers) == Elems(s.peers) - {x};
      if x in Members(s) { assert Members(s) == Members(w) + {x}; }
    }
  }

  /** So quorums before and after one applied change meet. */
  lemma QuorumsMeetAcrossChange(s: Server, isAdd: bool, x: NodeId, p: set<NodeId>, q: set<NodeId>) returns (y: NodeId)
    requires CleanPeers(s) && x != s.id && IsQuorum(s, p) && IsQuorum(ApplyConfig(s, isAdd, x), q)
    ensures y in p && y in q
  {
    ChangeIsOneStep(s, isAdd, x);
    hide ApplyConfig;
    y := QuorumsMeet(s, ApplyConfig(s, isAdd, x), p, q);
  }

  /** Across two changes they need not. */
  lemma TwoChangesMayMiss(s: Server)
    requires s.id == "a" && s.peers == ["b", "c"]
    ensures var w := ApplyConfig(ApplyConfig(s, true, "d"), true, "e");
            IsQuorum(s, {"a", "b"}) && IsQuorum(w, {"c", "d", "e"}) && {"a", "b"} !! {"c", "d", "e"}
  {
    var w := ApplyConfig(ApplyConfig(s, true, "d"), true, "e");
    assert w.peers == ["b", "c", "d", "e"];
    assert w.peers[1] == "c" && w.peers[2] == "d" && w.peers[3] == "e";
    assert s.peers[0] == "b";
  }
}
