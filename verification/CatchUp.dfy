/** A stable leader brings a follower up to date, one request and reply at a time. */
module CatchUp {
  import opened Types
  import opened Server
  import opened Cluster
  import opened Merging
  import opened Batching

  /** The first batch pending for p. */
  function FirstRequest(v: Server, p: NodeId): AppendRequest
    requires v.base < NextOf(v, p) <= Last(v) + 1 && Last(v) < v.base + |v.log|
  {
    var prev := NextOf(v, p) - 1;
    Request(v, v.term, prev, prev, Min(prev + MAX_ENTRIES_PER_BATCH, Last(v)))
  }

  /** Both logs hold index i in the same term. */
  predicate SameTerm(v: Server, f: Server, i: nat) {
    var a, b := EntryAt(v.log, v.base, i), EntryAt(f.log, f.base, i);
    a.Some? && b.Some? && a.value.term == b.value.term
  }

  ghost predicate SameEntry(v: Server, f: Server, j: nat) {
    EntryAt(v.log, v.base, j).Some? && EntryAt(f.log, f.base, j) == EntryAt(v.log, v.base, j)
  }

  /** Above both bases, the logs are equal through i. */
  ghost predicate SameThrough(v: Server, f: Server, i: nat) {
    forall j {:trigger SameEntry(v, f, j)} :: v.base < j <= i && f.base < j ==> SameEntry(v, f, j)
  }

  /** Log matching, between these two logs. */
  ghost predicate Matching(v: Server, f: Server) {
    forall i {:trigger SameTerm(v, f, i)} :: SameTerm(v, f, i) ==> SameThrough(v, f, i)
  }

  /** Leader v and follower f in one stable term, with logs as log matching leaves them. */
  ghost predicate Stable(v: Server, p: NodeId, f: Server) {
    && v.role == Leader && p in v.peers && f.id == p && Known(f, v.id) && f.term <= v.term
    && Shape(v.log, v.base) && Shape(f.log, f.base)
    && (v.snap.Some? ==> v.snap.value.index == v.base)
    && v.base < NextOf(v, p) <= Last(v) + 1
    && Matching(v, f)
  }

  /** Backing off to its base, the leader will meet an entry the follower holds. */
  ghost predicate Meets(v: Server, p: NodeId, f: Server) {
    exists i :: v.base <= i < NextOf(v, p) && SameTerm(v, f, i)
  }

  /** The leader knows that the follower holds its whole log, and it does. */
  ghost predicate CaughtUp(v: Server, p: NodeId, f: Server) {
    Get(v.matchIndex, p) == Last(v) && NextOf(v, p) == Last(v) + 1 && SameTerm(v, f, Last(v))
      && SameThrough(v, f, Last(v))
  }

  /** Request, append, reply. Nothing is sent for an index the leader's log does not reach. */
  function Round(v: Server, p: NodeId, f: Server): (Server, Server) {
    if v.base < NextOf(v, p) <= Last(v) + 1 && Last(v) < v.base + |v.log| then
      var q := FirstRequest(v, p);
      var (f', r) := AppendEntries(f, q);
      (HandleAppendReply(v, p, q, r), f')
    else (v, f)
  }

  function Rounds(v: Server, p: NodeId, f: Server, n: nat): (Server, Server)
    decreases n
  {
    if n == 0 then (v, f)
    else
      var (v', f') := Round(v, p, f);
      Rounds(v', p, f', n - 1)
  }

  // -------------------------------------------------------------- one round

  /** The leader's side of a reply, as far as p is concerned. */
  lemma ReplyFacts(v: Server, p: NodeId, q: AppendRequest, r: AppendReply)
    requires v.role == Leader && p in v.peers && r.term <= v.term && v.base <= q.prev
             && (v.snap.Some? ==> v.snap.value.index < NextOf(v, p))
    requires v.base < NextOf(v, p) && (q.entries != [] ==> q.entries[|q.entries| - 1].index == q.prev + |q.entries|)
    ensures var w := HandleAppendReply(v, p, q, r);
            && w == v.(nextIndex := w.nextIndex, matchIndex := w.matchIndex, commitIndex := w.commitIndex)
            && (r.success ==> Get(w.matchIndex, p) == q.prev + |q.entries| && NextOf(w, p) == q.prev + |q.entries| + 1)
            && (!r.success ==> NextOf(w, p) == if NextOf(v, p) > v.base + 1 then NextOf(v, p) - 1 else NextOf(v, p))
  {
    hide CommitScan;
  }

  /** The follower's side. */
  lemma AppendSide(f: Server, q: AppendRequest)
    requires Known(f, q.leader) && f.term <= q.term
    ensures var (w, r) := AppendEntries(f, q);
            && r.term == f.term && w.term == q.term && w.id == f.id && w.peers == f.peers && w.base == f.base
            && (r.success <==> PrevOk(f, q.prev, q.prevTerm))
            && w.log == if r.success then Merge(f.log, f.base, q.entries) else f.log
  {
    hide Merge;
  }

  /** The request asks for the entry before it, and carries the leader's entries. */
  lemma RequestIs(v: Server, p: NodeId)
    requires Shape(v.log, v.base) && v.base < NextOf(v, p) <= Last(v) + 1
    ensures var q := FirstRequest(v, p);
            && q.leader == v.id && q.term == v.term && q.prev == NextOf(v, p) - 1
            && q.prev + |q.entries| == Min(q.prev + MAX_ENTRIES_PER_BATCH, Last(v))
            && Contiguous(q.entries, q.prev)
            && q.prevTerm == v.log[q.prev - v.base].term
            && forall k :: 0 <= k < |q.entries| ==> q.entries[k] == v.log[q.prev + 1 + k - v.base]
  {
  }

  // -------------------------------------------------------------- the merge

  /** es are the leader's entries after lo. */
  ghost predicate FromLeader(v: Server, lo: nat, es: seq<Entry>) {
    && v.base <= lo && lo + |es| < v.base + |v.log| && Contiguous(es, lo)
    && forall k :: 0 <= k < |es| ==> es[k] == v.log[lo + 1 + k - v.base]
  }

  ghost predicate Aligned(v: Server, f: Server, lo: nat, es: seq<Entry>) {
    Shape(v.log, v.base) && Shape(f.log, f.base) && Matching(v, f) && FromLeader(v, lo, es) && SameTerm(v, f, lo)
  }

  /** Cut just after an index both logs agree on, and continued with the leader's entries, the log is the leader's. */
  lemma CutSame(v: Server, f: Server, g: Server, lo: nat, es: seq<Entry>, k: nat)
    requires Aligned(v, f, lo, es) && k < |es| && SameTerm(v, f, lo + k)
    requires g.base == f.base && g.log == f.log[..lo + k + 1 - f.base] + es[k..]
    ensures Last(g) == lo + |es| && SameTerm(v, g, lo + |es|) && SameThrough(v, g, lo + |es|) && Shape(g.log, g.base)
  {
    assert SameThrough(v, f, lo + k);
    forall j | v.base < j <= lo + |es| && f.base < j ensures SameEntry(v, g, j) {
      if j <= lo + k {
        assert SameEntry(v, f, j);
      } else {
        assert g.log[j - f.base] == es[j - lo - 1];
      }
    }
    assert g.log[lo + |es| - f.base] == es[|es| - 1];
  }

  /** A log that agrees with the leader's to its own end matches it. */
  lemma SameMatches(v: Server, g: Server)
    requires Shape(g.log, g.base) && SameThrough(v, g, Last(g))
    ensures Matching(v, g)
  {
    forall i | SameTerm(v, g, i) ensures SameThrough(v, g, i) {
      forall j | v.base < j <= i && g.base < j ensures SameEntry(v, g, j) {}
    }
  }

  lemma AlignedFacts(v: Server, f: Server, lo: nat, es: seq<Entry>)
    requires Aligned(v, f, lo, es)
    ensures Contiguous(es, lo) && f.base <= lo <= Last(f) && Matching(v, f) && Shape(f.log, f.base)
  {
    hide Matching;
  }

  /** The append loop, on entries of the leader that follow an index both logs agree on. */
  lemma {:induction false} MergeSame(v: Server, f: Server, g: Server, lo: nat, es: seq<Entry>)
    requires Aligned(v, f, lo, es) && g.base == f.base && g.log == Merge(f.log, f.base, es)
    ensures Shape(g.log, g.base) && Matching(v, g) && SameTerm(v, g, lo + |es|) && SameThrough(v, g, lo + |es|)
  {
    var k := MergeMeets(v, f, lo, es);
    hide *;
    if k == |es| {
      KeptSame(v, f, g, lo, es);
    } else {
      CutSame(v, f, g, lo, es, k);
      SameMatches(v, g);
    }
  }

  /** The log is kept, or cut after an index both logs agree on and continued with the leader's entries. */
  lemma MergeMeets(v: Server, f: Server, lo: nat, es: seq<Entry>) returns (k: nat)
    requires Aligned(v, f, lo, es)
    ensures k <= |es| && SameTerm(v, f, lo + k) && lo + k + 1 - f.base <= |f.log|
    ensures Merge(f.log, f.base, es) == if k == |es| then f.log else f.log[..lo + k + 1 - f.base] + es[k..]
  {
    AlignedFacts(v, f, lo, es);
    k := MergeCases(f.log, f.base, lo, es);
    hide Merge;
    AgreesBefore(v, f, lo, es, k);
  }

  lemma KeptSame(v: Server, f: Server, g: Server, lo: nat, es: seq<Entry>)
    requires Aligned(v, f, lo, es) && g.base == f.base && g.log == f.log && SameTerm(v, f, lo + |es|)
    ensures Shape(g.log, g.base) && Matching(v, g) && SameTerm(v, g, lo + |es|) && SameThrough(v, g, lo + |es|)
  {
    SameLogs(v, f, v, g);
    hide SameTerm, SameThrough;
  }

  lemma AgreesBefore(v: Server, f: Server, lo: nat, es: seq<Entry>, k: nat)
    requires Aligned(v, f, lo, es) && k <= |es| && lo + k <= Last(f) && NoConflict(f.log, f.base, es[..k])
    ensures SameTerm(v, f, lo + k)
  {
    if k > 0 {
      assert es[..k][k - 1] == es[k - 1];
      assert !Conflicts(f.log, f.base, es[..k][k - 1]);
    }
  }

  // ------------------------------------------------------------- the rounds

  /** How far back the leader still has to go, at most. */
  ghost function Gap(v: Server, p: NodeId, f: Server): nat
    requires v.base < NextOf(v, p)
  {
    if SameTerm(v, f, NextOf(v, p) - 1) then 0 else NextOf(v, p) - 1 - v.base
  }

  /** What the leader keeps in a round, and where it stands with p. */
  ghost predicate LeaderMoved(v: Server, w: Server, p: NodeId, next: nat) {
    && w.id == v.id && w.peers == v.peers && w.role == v.role && w.term == v.term && w.log == v.log && w.base == v.base
    && w.snap == v.snap
    && NextOf(w, p) == next
  }

  /** The follower after a round: the same node in the leader's term, with this log. */
  ghost predicate FollowerMoved(v: Server, f: Server, g: Server, log: seq<Entry>) {
    g.id == f.id && g.peers == f.peers && g.term == v.term && g.base == f.base && g.log == log
  }

  lemma RoundFails(v: Server, p: NodeId, f: Server)
    requires Stable(v, p, f) && !SameTerm(v, f, NextOf(v, p) - 1) && NextOf(v, p) > 1
    ensures var (w, g) := Round(v, p, f);
            && LeaderMoved(v, w, p, if NextOf(v, p) > v.base + 1 then NextOf(v, p) - 1 else NextOf(v, p))
            && FollowerMoved(v, f, g, f.log)
  {
    hide Matching, AppendEntries, HandleAppendReply;
    var q := FirstRequest(v, p);
    RequestIs(v, p);
    AppendSide(f, q);
    ReplyFacts(v, p, q, AppendEntries(f, q).1);
  }

  lemma RoundSucceeds(v: Server, p: NodeId, f: Server)
    requires Stable(v, p, f) && SameTerm(v, f, NextOf(v, p) - 1)
    ensures var (w, g) := Round(v, p, f);
            var q := FirstRequest(v, p);
            && LeaderMoved(v, w, p, q.prev + |q.entries| + 1) && Get(w.matchIndex, p) == q.prev + |q.entries|
            && FollowerMoved(v, f, g, Merge(f.log, f.base, q.entries))
            && Aligned(v, f, q.prev, q.entries)
            && q.prev + |q.entries| == Min(NextOf(v, p) - 1 + MAX_ENTRIES_PER_BATCH, Last(v))
  {
    hide Matching, AppendEntries, HandleAppendReply, Merge;
    var q := FirstRequest(v, p);
    RequestIs(v, p);
    AppendSide(f, q);
    ReplyFacts(v, p, q, AppendEntries(f, q).1);
  }

  /** Agreement depends on the two logs alone. */
  lemma SameLogs(v: Server, f: Server, w: Server, g: Server)
    requires w.log == v.log && w.base == v.base && g.log == f.log && g.base == f.base
    ensures forall i :: SameTerm(w, g, i) == SameTerm(v, f, i)
    ensures forall i :: SameThrough(w, g, i) == SameThrough(v, f, i)
    ensures Matching(w, g) == Matching(v, f)
  {
    forall i ensures SameThrough(w, g, i) == SameThrough(v, f, i) {
      forall j ensures SameEntry(w, g, j) == SameEntry(v, f, j) {}
    }
  }

  /** The pair is still stable, and caught up or closer to it. */
  ghost predicate Progressed(v: Server, p: NodeId, f: Server, w: Server, g: Server)
    requires v.base < NextOf(v, p)
  {
    && Stable(w, p, g) && Meets(w, p, g) && w.log == v.log && w.base == v.base
    && (CaughtUp(w, p, g)
        || (Gap(w, p, g) < Gap(v, p, f) && NextOf(w, p) == NextOf(v, p) - 1)
        || (Gap(w, p, g) == Gap(v, p, f) && NextOf(w, p) > NextOf(v, p)))
  }

  lemma SuccessProgress(v: Server, p: NodeId, f: Server, w: Server, g: Server, hi: nat)
    requires Stable(v, p, f) && SameTerm(v, f, NextOf(v, p) - 1) && LeaderMoved(v, w, p, hi + 1)
             && Get(w.matchIndex, p) == hi
    requires FollowerMoved(v, f, g, g.log) && Shape(g.log, g.base) && Matching(v, g) && SameTerm(v, g, hi)
             && SameThrough(v, g, hi)
    requires hi == Min(NextOf(v, p) - 1 + MAX_ENTRIES_PER_BATCH, Last(v))
    ensures Progressed(v, p, f, w, g)
  {
    SameLogs(v, g, w, g);
    hide Matching, SameThrough, SameTerm;
  }

  lemma FailureProgress(v: Server, p: NodeId, f: Server, w: Server, g: Server)
    requires Stable(v, p, f) && Meets(v, p, f) && !SameTerm(v, f, NextOf(v, p) - 1) && NextOf(v, p) > v.base + 1
    requires LeaderMoved(v, w, p, NextOf(v, p) - 1) && FollowerMoved(v, f, g, f.log)
    ensures Progressed(v, p, f, w, g)
  {
    SameLogs(v, f, w, g);
    hide Matching, SameThrough, SameTerm;
  }

  lemma FollowerFacts(v: Server, f: Server, g: Server, log: seq<Entry>)
    requires FollowerMoved(v, f, g, log)
    ensures g.base == f.base && g.log == log && FollowerMoved(v, f, g, g.log)
  {
  }

  /** A round keeps the pair stable, and ends the catch-up or brings it closer. */
  lemma RoundProgress(v: Server, p: NodeId, f: Server)
    requires Stable(v, p, f) && Meets(v, p, f)
    ensures var (w, g) := Round(v, p, f); Progressed(v, p, f, w, g)
  {
    assert v.base < NextOf(v, p) <= Last(v) + 1 && Last(v) < v.base + |v.log|;
    assert SameTerm(v, f, NextOf(v, p) - 1) || NextOf(v, p) > v.base + 1;
    var q := FirstRequest(v, p);
    hide *;
    var (w, g) := Round(v, p, f);
    if SameTerm(v, f, NextOf(v, p) - 1) {
      RoundSucceeds(v, p, f);
      FollowerFacts(v, f, g, Merge(f.log, f.base, q.entries));
      MergeSame(v, f, g, q.prev, q.entries);
      SuccessProgress(v, p, f, w, g, q.prev + |q.entries|);
    } else {
      RoundFails(v, p, f);
      FailureProgress(v, p, f, w, g);
    }
  }

  /** The catch-up ends: after finitely many rounds the follower holds the leader's log, and the leader knows. */
  lemma {:induction false} CatchesUp(v: Server, p: NodeId, f: Server) returns (n: nat)
    requires Stable(v, p, f) && Meets(v, p, f)
    ensures var (w, g) := Rounds(v, p, f, n);
            CaughtUp(w, p, g) && w.log == v.log && w.base == v.base
    ensures n <= 2 * Gap(v, p, f) + Last(v) + 2 - NextOf(v, p)
    decreases Gap(v, p, f), Last(v) + 1 - NextOf(v, p)
  {
    hide Round, CaughtUp, Matching, SameTerm, Gap, NextOf, Shape, Known, Meets;
    RoundProgress(v, p, f);
    var (w, g) := Round(v, p, f);
    if CaughtUp(w, p, g) {
      n := 1;
      assert Rounds(w, p, g, 0) == (w, g);
    } else {
      var m := CatchesUp(w, p, g);
      n := m + 1;
    }
  }

  // ------------------------------------------------- the request no check guards

  /** The last index of the batch that follows index 0. */
  function FirstReach(v: Server): nat { Min(MAX_ENTRIES_PER_BATCH, Last(v)) }

  /** The leader can back off to index 0, which is never checked, and its next batch reaches the follower's base. */
  predicate Unchecked(v: Server, f: Server) { v.base == 0 && Last(v) > 0 && f.base <= FirstReach(v) }

  lemma RoundUnchecked(v: Server, p: NodeId, f: Server)
    requires Stable(v, p, f) && v.base == 0 && NextOf(v, p) == 1
    ensures var (w, g) := Round(v, p, f);
            var es := FirstRequest(v, p).entries;
            && LeaderMoved(v, w, p, FirstReach(v) + 1) && FollowerMoved(v, f, g, Merge(f.log, f.base, es))
            && |es| == FirstReach(v) && FromLeader(v, 0, es)
  {
    hide Matching, AppendEntries, HandleAppendReply, Merge;
    var q := FirstRequest(v, p);
    RequestIs(v, p);
    AppendSide(f, q);
    ReplyFacts(v, p, q, AppendEntries(f, q).1);
  }

  /** Entries below the base are skipped. */
  lemma {:induction false} SkipBelow(log: seq<Entry>, base: nat, es: seq<Entry>)
    requires forall k :: 0 <= k < |es| ==> es[k].index < base
    ensures Merge(log, base, es) == log
  {
    if es != [] { SkipBelow(log, base, es[..|es| - 1]); }
  }

  /** The first entry of the leader that is not skipped leaves the follower in agreement at its index. */
  lemma FirstKept(v: Server, f: Server, h: Server, i: nat)
    requires Shape(v.log, v.base) && Shape(f.log, f.base) && Matching(v, f) && v.base == 0
    requires i == (if f.base == 0 then 1 else f.base) && i < |v.log|
    requires h.base == f.base && h.log == MergeOne(f.log, f.base, v.log[i])
    ensures Shape(h.log, h.base) && SameTerm(v, h, i) && Matching(v, h)
  {
    if i - f.base < |f.log| && f.log[i - f.base].term == v.log[i].term {
      SameLogs(v, f, v, h);
    } else {
      forall j | v.base < j <= i && h.base < j ensures SameEntry(v, h, j) {}
      SameMatches(v, h);
    }
  }

  lemma LeaderRest(v: Server, es: seq<Entry>, i: nat)
    requires FromLeader(v, 0, es) && i <= |es|
    ensures FromLeader(v, i, es[i..])
  {
  }

  /** The merge, split at the first entry that is not skipped. */
  lemma MergeFirst(log: seq<Entry>, base: nat, es: seq<Entry>, i: nat)
    requires Contiguous(es, 0) && 0 < i <= |es| && i == if base == 0 then 1 else base
    ensures Merge(log, base, es) == Merge(MergeOne(log, base, es[i - 1]), base, es[i..])
  {
    var a, e := es[..i - 1], es[i - 1];
    SkipBelow(log, base, a);
    MergeInTwo(log, base, a, [e]);
    assert [e][..0] == [] && Merge(log, base, [e]) == MergeOne(log, base, e);
    MergeInTwo(log, base, a + [e], es[i..]);
    assert a + [e] + es[i..] == es;
  }

  /** A batch from index 0 that reaches the base of the follower brings it into agreement. */
  lemma {:induction false} UncheckedMerge(v: Server, f: Server, g: Server, es: seq<Entry>)
    requires Shape(v.log, v.base) && Shape(f.log, f.base) && Matching(v, f) && v.base == 0
    requires FromLeader(v, 0, es) && 0 < |es| && f.base <= |es| && g.base == f.base && g.log == Merge(f.log, f.base, es)
    ensures Shape(g.log, g.base) && Matching(v, g) && SameTerm(v, g, |es|) && SameThrough(v, g, |es|)
  {
    var i := if f.base == 0 then 1 else f.base;
    var h := f.(log := MergeOne(f.log, f.base, v.log[i]));
    assert es[i - 1] == v.log[i];
    LeaderRest(v, es, i);
    hide Matching, SameTerm, SameThrough, Merge, MergeOne;
    MergeFirst(f.log, f.base, es, i);
    FirstKept(v, f, h, i);
    assert Aligned(v, h, i, es[i..]);
    MergeSame(v, h, g, i, es[i..]);
  }

  lemma UncheckedProgress(v: Server, p: NodeId, f: Server)
    requires Stable(v, p, f) && Unchecked(v, f) && NextOf(v, p) == 1
    ensures var (w, g) := Round(v, p, f); Stable(w, p, g) && Meets(w, p, g)
  {
    hide Round, Matching, SameThrough, Merge;
    RoundUnchecked(v, p, f);
    var (w, g) := Round(v, p, f);
    UncheckedMerge(v, f, g, FirstRequest(v, p).entries);
    SameLogs(v, g, w, g);
    assert SameTerm(w, g, FirstReach(v));
  }

  /** While nothing is met the leader backs off, and the pair stays as it is. */
  lemma BackOff(v: Server, p: NodeId, f: Server)
    requires Stable(v, p, f) && !Meets(v, p, f) && (v.base > 0 || NextOf(v, p) > 1)
    ensures var (w, g) := Round(v, p, f);
            && Stable(w, p, g) && !Meets(w, p, g) && g.log == f.log && g.base == f.base
            && LeaderMoved(v, w, p, if NextOf(v, p) > v.base + 1 then NextOf(v, p) - 1 else NextOf(v, p))
  {
    RoundFails(v, p, f);
    hide Round;
    var (w, g) := Round(v, p, f);
    SameLogs(v, f, w, g);
    hide Matching, SameTerm, SameThrough;
  }

  lemma {:induction false} CatchesUpUnchecked(v: Server, p: NodeId, f: Server) returns (n: nat)
    requires Stable(v, p, f) && Unchecked(v, f)
    ensures var (w, g) := Rounds(v, p, f, n);
            CaughtUp(w, p, g) && w.log == v.log && w.base == v.base
    decreases NextOf(v, p)
  {
    hide Round, CaughtUp, Matching, SameTerm, Shape, Known;
    if Meets(v, p, f) {
      n := CatchesUp(v, p, f);
    } else if NextOf(v, p) == 1 {
      UncheckedProgress(v, p, f);
      RoundUnchecked(v, p, f);
      var (w, g) := Round(v, p, f);
      var m := CatchesUp(w, p, g);
      n := m + 1;
    } else {
      BackOff(v, p, f);
      var (w, g) := Round(v, p, f);
      var m := CatchesUpUnchecked(w, p, g);
      n := m + 1;
    }
  }

  // ------------------------------------------------------------- no catching up

  /** Nothing to meet, and no unchecked batch that reaches the follower's base. */
  ghost predicate Stuck(v: Server, p: NodeId, f: Server) {
    Stable(v, p, f) && !Meets(v, p, f) && !Unchecked(v, f)
  }

  lemma UncheckedSkipped(v: Server, p: NodeId, f: Server)
    requires Stuck(v, p, f) && v.base == 0 && NextOf(v, p) == 1
    ensures var (w, g) := Round(v, p, f);
            Stuck(w, p, g) && g.log == f.log && w.log == v.log && w.base == v.base && w.snap == v.snap
  {
    hide Round, Matching, SameThrough, Merge;
    RoundUnchecked(v, p, f);
    SkipBelow(f.log, f.base, FirstRequest(v, p).entries);
    var (w, g) := Round(v, p, f);
    SameLogs(v, f, w, g);
    assert FirstReach(v) == 0 ==> !SameTerm(v, f, 0);
  }

  /** Nothing ever moves: back-off stops above the base, and so no snapshot is sent either. */
  lemma RoundStuck(v: Server, p: NodeId, f: Server)
    requires Stuck(v, p, f)
    ensures var (w, g) := Round(v, p, f);
            Stuck(w, p, g) && g.log == f.log && w.log == v.log && w.base == v.base && w.snap == v.snap
  {
    hide Round, Matching, SameTerm, Known;
    if v.base == 0 && NextOf(v, p) == 1 {
      UncheckedSkipped(v, p, f);
    } else {
      BackOff(v, p, f);
    }
  }

  /** A stuck pair is not caught up, and the leader does not need to send a snapshot. */
  lemma StuckFacts(v: Server, p: NodeId, f: Server)
    requires Stuck(v, p, f)
    ensures !CaughtUp(v, p, f) && (v.snap.Some? ==> v.snap.value.index < NextOf(v, p))
  {
    hide Matching, SameTerm, SameThrough, Shape;
  }

  lemma {:induction false} NeverCatchesUp(v: Server, p: NodeId, f: Server, n: nat)
    requires Stuck(v, p, f)
    ensures var (w, g) := Rounds(v, p, f, n);
            && !CaughtUp(w, p, g) && g.log == f.log && w.log == v.log && w.snap == v.snap
            && (w.snap.Some? ==> w.snap.value.index < NextOf(w, p))
    decreases n
  {
    hide Round, Stuck, CaughtUp;
    if n == 0 {
      StuckFacts(v, p, f);
    } else {
      RoundStuck(v, p, f);
      var (w, g) := Round(v, p, f);
      NeverCatchesUp(w, p, g, n - 1);
    }
  }

  /**
   A leader catches a follower up exactly when back-off can meet the follower's log, or can reach index 0 with a
   first batch that reaches the follower's base.
   */
  lemma {:induction false} CatchesUpIff(v: Server, p: NodeId, f: Server)
    requires Stable(v, p, f)
    ensures (exists n :: var (w, g) := Rounds(v, p, f, n); CaughtUp(w, p, g)) <==> Meets(v, p, f) || Unchecked(v, f)
  {
    hide CaughtUp, Stable, Unchecked, Meets, Rounds;
    if Meets(v, p, f) {
      var n := CatchesUp(v, p, f);
    } else if Unchecked(v, f) {
      var n := CatchesUpUnchecked(v, p, f);
    } else {
      forall n ensures var (w, g) := Rounds(v, p, f, n); !CaughtUp(w, p, g) {
        NeverCatchesUp(v, p, f, n);
      }
    }
  }
}
