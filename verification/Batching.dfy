/** A leader's pending entries, sent in batches under a limited number of permits. */
module Batching {
  import opened Types
  import opened Server
  import opened Cluster
  import opened Merging

  const MAX_ENTRIES_PER_BATCH: nat := 100

  /** The requests sent for all[i..]: batch b goes out if a permit is free for it, and only then moves q on. */
  function Batches(q: AppendRequest, all: seq<Entry>, i: nat, free: nat -> bool): seq<AppendRequest>
    decreases |all| - i
  {
    if i >= |all| then []
    else
      var end := Min(i + MAX_ENTRIES_PER_BATCH, |all|);
      if free(i / MAX_ENTRIES_PER_BATCH)
      then [q.(entries := all[i..end])] +
           Batches(q.(prev := all[end - 1].index, prevTerm := all[end - 1].term), all, i + MAX_ENTRIES_PER_BATCH, free)
      else Batches(q, all, i + MAX_ENTRIES_PER_BATCH, free)
  }

  method SendBatches(q: AppendRequest, all: seq<Entry>, free: nat -> bool) returns (sent: seq<AppendRequest>)
    ensures sent == if all == [] then [q.(entries := [])] else Batches(q, all, 0, free)
  {
    if |all| == 0 { return [q.(entries := [])]; }
    var prev, prevTerm := q.prev, q.prevTerm;
    var i := 0;
    sent := [];
    while i < |all|
      invariant sent + Batches(q.(prev := prev, prevTerm := prevTerm), all, i, free) == Batches(q, all, 0, free)
    {
      var end := i + MAX_ENTRIES_PER_BATCH;
      if end > |all| { end := |all|; }
      var batch := all[i..end];
      if !free(i / MAX_ENTRIES_PER_BATCH) {
        i := i + MAX_ENTRIES_PER_BATCH;
        continue;
      }
      sent := sent + [q.(prev := prev, prevTerm := prevTerm, entries := batch)];
      prev := batch[|batch| - 1].index;
      prevTerm := batch[|batch| - 1].term;
      i := i + MAX_ENTRIES_PER_BATCH;
    }
  }

  // ------------------------------------------------------------ skipped batches

  /** The request's previous entry is the one just before its first. */
  ghost predicate Gapless(q: AppendRequest) {
    q.entries != [] ==> q.entries[0].index == q.prev + 1
  }

  ghost predicate AllGapless(sent: seq<AppendRequest>) {
    forall j :: 0 <= j < |sent| ==> Gapless(sent[j])
  }

  /** From batch b on, no batch is sent after one that was skipped. */
  ghost predicate NoSkip(b: nat, n: nat, free: nat -> bool) {
    forall j, k :: b <= j < k < n && free(k) ==> free(j)
  }

  ghost predicate NoneSent(b: nat, n: nat, free: nat -> bool) {
    forall k :: b <= k < n ==> !free(k)
  }

  function BatchCount(all: seq<Entry>): nat { (|all| + MAX_ENTRIES_PER_BATCH - 1) / MAX_ENTRIES_PER_BATCH }

  lemma GaplessCons(q: AppendRequest, rest: seq<AppendRequest>)
    ensures AllGapless([q] + rest) <==> Gapless(q) && AllGapless(rest)
  {
    var sent := [q] + rest;
    assert sent[0] == q && forall j :: 0 <= j < |rest| ==> sent[j + 1] == rest[j];
    if AllGapless(rest) && Gapless(q) {
      forall j | 0 <= j < |sent| ensures Gapless(sent[j]) { if j > 0 { assert sent[j] == rest[j - 1]; } }
    }
  }

  /** Once behind, any further request has a gap. */
  lemma {:induction false} BehindGapless(q: AppendRequest, all: seq<Entry>, b: nat, lo: nat, free: nat -> bool)
    requires Contiguous(all, lo) && q.prev < lo + b * MAX_ENTRIES_PER_BATCH
    ensures AllGapless(Batches(q, all, b * MAX_ENTRIES_PER_BATCH, free)) <==> NoneSent(b, BatchCount(all), free)
    decreases |all| - b * MAX_ENTRIES_PER_BATCH
  {
    var i := b * MAX_ENTRIES_PER_BATCH;
    var sent := Batches(q, all, i, free);
    if i < |all| {
      assert i / MAX_ENTRIES_PER_BATCH == b < BatchCount(all);
      if free(b) {
        assert !Gapless(sent[0]);
      } else {
        BehindGapless(q, all, b + 1, lo, free);
      }
    }
  }

  /** While up to date, every request is gapless exactly when no batch follows a skipped one. */
  lemma {:induction false} GaplessFrom(q: AppendRequest, all: seq<Entry>, b: nat, lo: nat, free: nat -> bool)
    requires Contiguous(all, lo) && q.prev == lo + b * MAX_ENTRIES_PER_BATCH
    ensures AllGapless(Batches(q, all, b * MAX_ENTRIES_PER_BATCH, free)) <==> NoSkip(b, BatchCount(all), free)
    decreases |all| - b * MAX_ENTRIES_PER_BATCH
  {
    var i := b * MAX_ENTRIES_PER_BATCH;
    var sent := Batches(q, all, i, free);
    if i < |all| {
      assert i / MAX_ENTRIES_PER_BATCH == b < BatchCount(all);
      if free(b) {
        var end := Min(i + MAX_ENTRIES_PER_BATCH, |all|);
        var q' := q.(prev := all[end - 1].index, prevTerm := all[end - 1].term);
        if end == i + MAX_ENTRIES_PER_BATCH {
          GaplessFrom(q', all, b + 1, lo, free);
        } else {
          assert BatchCount(all) == b + 1;
        }
        GaplessCons(q.(entries := all[i..end]), Batches(q', all, i + MAX_ENTRIES_PER_BATCH, free));
        assert NoSkip(b, BatchCount(all), free) <==> NoSkip(b + 1, BatchCount(all), free);
      } else {
        BehindGapless(q, all, b + 1, lo, free);
      }
    }
  }

  /** No request has a gap exactly when no batch follows a skipped one. */
  lemma {:induction false} GaplessIff(q: AppendRequest, all: seq<Entry>, free: nat -> bool)
    requires Contiguous(all, q.prev)
    ensures AllGapless(Batches(q, all, 0, free)) <==> NoSkip(0, BatchCount(all), free)
  {
    GaplessFrom(q, all, 0, q.prev, free);
  }

  // --------------------------------------------------- one request or many

  /** A follower handling requests in order. */
  function HandleAll(s: Server, qs: seq<AppendRequest>): Server
    decreases |qs|
  {
    if qs == [] then s else HandleAll(AppendEntries(s, qs[0]).0, qs[1..])
  }

  lemma {:induction false} HandleCons(s: Server, q: AppendRequest, rest: seq<AppendRequest>)
    ensures HandleAll(s, [q] + rest) == HandleAll(AppendEntries(s, q).0, rest)
  {
    hide AppendEntries;
    assert ([q] + rest)[1..] == rest;
  }

  /** The request that follows q once its entries are es. */
  function Moved(q: AppendRequest, es: seq<Entry>): AppendRequest
    requires es != []
  {
    q.(prev := es[|es| - 1].index, prevTerm := es[|es| - 1].term)
  }

  function Following(q: AppendRequest, es: seq<Entry>, rest: seq<Entry>): AppendRequest
    requires es != []
  {
    Moved(q, es).(entries := rest)
  }

  ghost predicate Acceptable(s: Server, q: AppendRequest) {
    Known(s, q.leader) && s.term <= q.term && PrevOk(s, q.prev, q.prevTerm) && Shape(s.log, s.base)
  }

  lemma AcceptableReaches(s: Server, q: AppendRequest)
    requires Acceptable(s, q)
    ensures q.prev <= Last(s)
  {
  }

  /** The commit index a request leaves behind on a log that ends at `last`. */
  function Clamped(commit: nat, leaderCommit: nat, last: nat): nat {
    if leaderCommit > commit then Min(leaderCommit, last) else commit
  }

  /** An accepted request, field by field. */
  lemma AcceptedIs(s: Server, q: AppendRequest)
    requires Acceptable(s, q)
    ensures var (w, r) := AppendEntries(s, q);
            var s1, log := StepUp(s, q.term).(leader := q.leader), Merge(s.log, s.base, q.entries);
            && r.success && w.term == q.term && w.leader == q.leader
            && w == s1.(log := log, disk := s1.disk.(log := log),
                        commitIndex := Clamped(s.commitIndex, q.commit, LastIndex(log, s.base)))
  {
  }

  /** A commit index reached on the way to the one request q asks for. */
  predicate OnTheWay(s: Server, q: AppendRequest, c: nat) {
    if q.commit <= s.commitIndex then c == s.commitIndex else c <= q.commit
  }

  /** The entries of an accepted request pass the next request's check. */
  lemma NextIsAcceptable(s: Server, q: AppendRequest, a: seq<Entry>, b: seq<Entry>, c: nat)
    requires Acceptable(s, q) && Contiguous(a, q.prev) && a != [] && s.base <= q.prev + |a|
    ensures Acceptable(AppendEntries(s, q.(entries := a)).0.(commitIndex := c), Following(q, a, b))
  {
    AcceptableReaches(s, q);
    AcceptedIs(s, q.(entries := a));
    MergeHolds(s.log, s.base, q.prev, a);
    hide AppendEntries, Merge;
    assert a[|a| - 1].index == q.prev + |a|;
  }

  /** Two consecutive requests do what one does, but for a commit index that the last request settles. */
  lemma SplitRequest(s: Server, q: AppendRequest, a: seq<Entry>, b: seq<Entry>, c: nat) returns (c': nat)
    requires Acceptable(s, q) && Contiguous(a + b, q.prev) && a != [] && s.base <= q.prev + |a| && OnTheWay(s, q, c)
    ensures AppendEntries(AppendEntries(s, q.(entries := a)).0.(commitIndex := c), Following(q, a, b)).0
         == AppendEntries(s, q.(entries := a + b)).0.(commitIndex := c')
    ensures OnTheWay(s, q, c')
    ensures q.commit <= q.prev + |a| + |b| ==> c' == AppendEntries(s, q.(entries := a + b)).0.commitIndex
  {
    hide AppendEntries, Merge;
    AcceptableReaches(s, q);
    assert forall k :: 0 <= k < |a| ==> (a + b)[k] == a[k];
    NextIsAcceptable(s, q, a, b, c);
    MergeInTwo(s.log, s.base, a, b);
    MergeHolds(s.log, s.base, q.prev, a + b);
    AcceptedIs(s, q.(entries := a));
    AcceptedIs(s, q.(entries := a + b));
    AcceptedIs(AppendEntries(s, q.(entries := a)).0.(commitIndex := c), Following(q, a, b));
    hide Acceptable, Contiguous, Shape, Holds, EntryAt;
    c' := Clamped(c, q.commit, LastIndex(Merge(s.log, s.base, a + b), s.base));
  }

  lemma {:induction false} FirstBatch(q: AppendRequest, all: seq<Entry>, i: nat, free: nat -> bool)
    requires 0 < i == Min(MAX_ENTRIES_PER_BATCH, |all|) && free(0)
    ensures Batches(q, all, 0, free) == [q.(entries := all[..i])] + Batches(Moved(q, all[..i]), all, i, free)
  {
    assert all[0..i] == all[..i] && all[..i][i - 1] == all[i - 1];
  }

  /** Batches sent one after another. */
  lemma {:induction false} BatchesStep(q: AppendRequest, all: seq<Entry>, i: nat, end: nat, free: nat -> bool)
    requires 0 < i < |all| && end == Min(i + MAX_ENTRIES_PER_BATCH, |all|) && free(i / MAX_ENTRIES_PER_BATCH)
    ensures Batches(Moved(q, all[..i]), all, i, free)
         == [Following(q, all[..i], all[i..end])] + Batches(Moved(q, all[..end]), all, end, free)
  {
    assert all[..end][end - 1] == all[end - 1];
  }

  lemma {:induction false} BatchesFrom(s: Server, q: AppendRequest, all: seq<Entry>, i: nat, c: nat, free: nat -> bool)
    requires Acceptable(s, q) && Contiguous(all, q.prev) && q.commit <= q.prev + |all|
    requires 0 < i < |all| && s.base <= q.prev + i && OnTheWay(s, q, c) && forall j :: free(j)
    ensures HandleAll(AppendEntries(s, q.(entries := all[..i])).0.(commitIndex := c),
                      Batches(Moved(q, all[..i]), all, i, free))
         == AppendEntries(s, q.(entries := all)).0
    decreases |all| - i
  {
    var end := Min(i + MAX_ENTRIES_PER_BATCH, |all|);
    hide AppendEntries, Acceptable, OnTheWay, HandleAll;
    BatchesStep(q, all, i, end, free);
    hide Batches;
    PartIs(all, i, end, q.prev);
    var c' := SplitRequest(s, q, all[..i], all[i..end], c);
    var x := AppendEntries(s, q.(entries := all[..i])).0.(commitIndex := c);
    HandleCons(x, Following(q, all[..i], all[i..end]), Batches(Moved(q, all[..end]), all, end, free));
    if end < |all| {
      BatchesFrom(s, q, all, end, c', free);
    } else {
      NoneLeft(AppendEntries(x, Following(q, all[..i], all[i..end])).0, Moved(q, all[..end]), all, free);
    }
  }

  lemma {:induction false} NoneLeft(s: Server, q: AppendRequest, all: seq<Entry>, free: nat -> bool)
    ensures HandleAll(s, Batches(q, all, |all|, free)) == s
  {
    hide AppendEntries;
  }

  lemma PartIs(all: seq<Entry>, i: nat, end: nat, lo: nat)
    requires i <= end <= |all| && Contiguous(all, lo)
    ensures all[..end] == all[..i] + all[i..end] && Contiguous(all[..i] + all[i..end], lo)
            && (end == |all| ==> all[..end] == all)
  {
  }

  /** Handled in order, the batches do to the follower what one unbatched request does. */
  lemma {:induction false} BatchesEqualOne(s: Server, q: AppendRequest, all: seq<Entry>, free: nat -> bool)
    requires Acceptable(s, q) && Contiguous(all, q.prev) && q.commit <= q.prev + |all|
    requires s.base <= q.prev + MAX_ENTRIES_PER_BATCH || |all| <= MAX_ENTRIES_PER_BATCH
    requires all != [] && forall j :: free(j)
    ensures HandleAll(s, Batches(q, all, 0, free)) == AppendEntries(s, q.(entries := all)).0
  {
    var i := Min(MAX_ENTRIES_PER_BATCH, |all|);
    var first, rest := q.(entries := all[..i]), Batches(Moved(q, all[..i]), all, i, free);
    FirstBatch(q, all, i, free);
    hide AppendEntries, Acceptable, HandleAll, Batches, OnTheWay;
    HandleCons(s, first, rest);
    if i < |all| {
      FirstCommit(s, q, all[..i]);
      BatchesFrom(s, q, all, i, AppendEntries(s, first).0.commitIndex, free);
    } else {
      assert all[..i] == all;
      NoneLeft(AppendEntries(s, first).0, Moved(q, all[..i]), all, free);
    }
  }

  lemma FirstCommit(s: Server, q: AppendRequest, a: seq<Entry>)
    requires Acceptable(s, q)
    ensures OnTheWay(s, q, AppendEntries(s, q.(entries := a)).0.commitIndex)
  {
    AcceptedIs(s, q.(entries := a));
    hide AppendEntries, Acceptable;
  }

  /** On index 0 the check is skipped, so a base beyond the first batch makes batching visible. */
  lemma SecondBatchRejected(s: Server, q: AppendRequest, a: seq<Entry>, b: seq<Entry>)
    requires Acceptable(s, q) && Contiguous(a + b, 0) && a != [] && q.prev == 0 && |a| < s.base
    ensures AppendEntries(s, q.(entries := a + b)).1.success
    ensures !AppendEntries(AppendEntries(s, q.(entries := a)).0, Following(q, a, b)).1.success
  {
    AcceptedIs(s, q.(entries := a));
    AcceptedIs(s, q.(entries := a + b));
    assert (a + b)[|a| - 1] == a[|a| - 1];
  }

  // ----------------------------------------------------------- every batch accepted

  /** A follower accepting requests in order. */
  predicate AllAccepted(s: Server, qs: seq<AppendRequest>)
    decreases |qs|
  {
    qs != [] ==> AppendEntries(s, qs[0]).1.success && AllAccepted(AppendEntries(s, qs[0]).0, qs[1..])
  }

  lemma {:induction false} AcceptedCons(s: Server, q: AppendRequest, rest: seq<AppendRequest>)
    ensures AllAccepted(s, [q] + rest) <==> AppendEntries(s, q).1.success && AllAccepted(AppendEntries(s, q).0, rest)
  {
    hide AppendEntries;
    assert ([q] + rest)[1..] == rest;
  }

  lemma {:induction false} AcceptedFrom(s: Server, q: AppendRequest, all: seq<Entry>, i: nat, c: nat, free: nat -> bool)
    requires Acceptable(s, q) && Contiguous(all, q.prev)
    requires 0 < i < |all| && s.base <= q.prev + i && OnTheWay(s, q, c) && forall j :: free(j)
    ensures AllAccepted(AppendEntries(s, q.(entries := all[..i])).0.(commitIndex := c),
                        Batches(Moved(q, all[..i]), all, i, free))
    decreases |all| - i
  {
    var end := Min(i + MAX_ENTRIES_PER_BATCH, |all|);
    hide AppendEntries, Acceptable, OnTheWay, AllAccepted;
    BatchesStep(q, all, i, end, free);
    PartIs(all, i, end, q.prev);
    var rest := Batches(Moved(q, all[..end]), all, end, free);
    assert end == |all| ==> rest == [];
    hide Batches;
    var c' := SplitRequest(s, q, all[..i], all[i..end], c);
    var x := AppendEntries(s, q.(entries := all[..i])).0.(commitIndex := c);
    NextIsAcceptable(s, q, all[..i], all[i..end], c);
    AcceptedIs(x, Following(q, all[..i], all[i..end]));
    AcceptedCons(x, Following(q, all[..i], all[i..end]), rest);
    if end < |all| {
      AcceptedFrom(s, q, all, end, c', free);
    } else {
      NothingToAccept(AppendEntries(x, Following(q, all[..i], all[i..end])).0);
    }
  }

  lemma {:induction false} NothingToAccept(s: Server)
    ensures AllAccepted(s, [])
  {
  }

  /**
   Every batch of an acceptable request is accepted exactly when the first reaches the follower's base or is the last.
   */
  lemma {:induction false} AllAcceptedIff(s: Server, q: AppendRequest, all: seq<Entry>, free: nat -> bool)
    requires Acceptable(s, q) && Contiguous(all, q.prev) && all != [] && forall j :: free(j)
    ensures AllAccepted(s, Batches(q, all, 0, free)) <==>
              s.base <= q.prev + MAX_ENTRIES_PER_BATCH || |all| <= MAX_ENTRIES_PER_BATCH
  {
    var i := Min(MAX_ENTRIES_PER_BATCH, |all|);
    var first, rest := q.(entries := all[..i]), Batches(Moved(q, all[..i]), all, i, free);
    FirstBatch(q, all, i, free);
    assert i == |all| ==> rest == [];
    hide AppendEntries, Acceptable, Batches, OnTheWay, AllAccepted;
    FirstAccepted(s, first);
    AcceptedCons(s, first, rest);
    if i == |all| {
      NothingToAccept(AppendEntries(s, first).0);
    } else if s.base <= q.prev + i {
      FirstCommit(s, q, all[..i]);
      AcceptedFrom(s, q, all, i, AppendEntries(s, first).0.commitIndex, free);
    } else {
      SecondRefused(s, q, all, i, free);
    }
  }

  lemma FirstAccepted(s: Server, q: AppendRequest)
    requires Acceptable(s, q)
    ensures AppendEntries(s, q).1.success
  {
    hide Merge;
  }

  lemma {:induction false} SecondRefused(s: Server, q: AppendRequest, all: seq<Entry>, i: nat, free: nat -> bool)
    requires Acceptable(s, q) && Contiguous(all, q.prev) && (forall j :: free(j)) && 0 < i < |all|
             && q.prev + i < s.base
    ensures !AllAccepted(AppendEntries(s, q.(entries := all[..i])).0, Batches(Moved(q, all[..i]), all, i, free))
  {
    assert q.prev == 0;
    var end := Min(i + MAX_ENTRIES_PER_BATCH, |all|);
    hide AppendEntries, Acceptable, AllAccepted;
    BatchesStep(q, all, i, end, free);
    hide Batches;
    PartIs(all, i, end, q.prev);
    SecondBatchRejected(s, q, all[..i], all[i..end]);
    AcceptedCons(AppendEntries(s, q.(entries := all[..i])).0, Following(q, all[..i], all[i..end]),
                 Batches(Moved(q, all[..end]), all, end, free));
  }

  // ------------------------------------------------------------ the commit clamp

  /**
   The clamp to the follower's own last index is the one of Figure 2, to the last new entry, exactly when
   the request was fresh enough: `TightClamp`.
   */
  lemma ClampIff(s: Server, q: AppendRequest)
    requires Acceptable(s, q) && Contiguous(q.entries, q.prev)
    ensures AppendEntries(s, q).0.commitIndex == Clamped(s.commitIndex, q.commit, q.prev + |q.entries|) <==>
              TightClamp(s, q)
  {
    AcceptableReaches(s, q);
    AcceptedIs(s, q);
    MergeHolds(s.log, s.base, q.prev, q.entries);
    hide AppendEntries, Merge, Acceptable;
  }

  // ------------------------------------------------- batches as cluster events

  /** The pending entries of p, and the request they start from. */
  ghost predicate Pending(v: Server, p: NodeId, t: nat, q: AppendRequest, all: seq<Entry>) {
    && Shape(v.log, v.base)
    && v.base < NextOf(v, p) <= Last(v) + 1
    && (v.snap.Some? ==> v.snap.value.index < NextOf(v, p))
    && q == Request(v, t, NextOf(v, p) - 1, NextOf(v, p) - 1, NextOf(v, p) - 1)
    && all == v.log[NextOf(v, p) - v.base..]
  }

  lemma IsPending(v: Server, p: NodeId, t: nat, q: AppendRequest, all: seq<Entry>)
    requires var next := NextOf(v, p);
             && next <= Last(v) + 1 && (v.snap.Some? ==> v.snap.value.index < next)
             && q.leader == v.id && q.term == t && q.prev == next - 1 && q.entries == [] && q.commit == v.commitIndex
             && q.prevTerm == (var e := EntryAt(v.log, v.base, next - 1); if e.Some? then e.value.term else 0)
             && (Shape(v.log, v.base) && v.base < next ==> all == v.log[next - v.base..])
    ensures Shape(v.log, v.base) && v.base < NextOf(v, p) ==> Pending(v, p, t, q, all)
  {
  }

  /** With at most one batch pending, every request vouches for all it commits, whichever follower takes it. */
  lemma {:induction false} OneBatchIsTight(v: Server, p: NodeId, t: nat, q: AppendRequest, all: seq<Entry>,
                                           free: nat -> bool, s: Server)
    requires Pending(v, p, t, q, all) && 0 < |all| <= MAX_ENTRIES_PER_BATCH && v.commitIndex <= Last(v)
    ensures forall r :: r in Batches(q, all, 0, free) ==> TightClamp(s, r)
  {
    if free(0) {
      FirstBatch(q, all, |all|, free);
      assert all[..|all|] == all;
      assert Batches(Moved(q, all), all, |all|, free) == [];
    } else {
      assert Batches(q, all, 0, free) == Batches(q, all, MAX_ENTRIES_PER_BATCH, free) == [];
    }
  }

  /** r is the request of some `SendAppend` step, for entries from lo + 1 on. */
  ghost predicate SentAs(v: Server, p: NodeId, t: nat, r: AppendRequest, lo: nat, hi: nat) {
    r.prev <= lo && Batch(v, p, lo, hi) && r == Request(v, t, r.prev, lo, hi)
  }

  ghost predicate Sendable(v: Server, p: NodeId, t: nat, r: AppendRequest) {
    exists lo, hi :: SentAs(v, p, t, r, lo, hi)
  }

  ghost predicate AllSendable(v: Server, p: NodeId, t: nat, sent: seq<AppendRequest>) {
    forall j :: 0 <= j < |sent| ==> Sendable(v, p, t, sent[j])
  }

  /** `now` is up to date: a request without entries, for an index the leader holds. */
  ghost predicate Ready(v: Server, t: nat, now: AppendRequest) {
    v.base <= now.prev && now == Request(v, t, now.prev, now.prev, now.prev)
  }

  lemma OneSend(v: Server, p: NodeId, t: nat, q: AppendRequest, all: seq<Entry>, now: AppendRequest, i: nat, end: nat)
    requires Pending(v, p, t, q, all) && Ready(v, t, now) && now.prev <= q.prev + i && i < end <= |all|
    ensures SentAs(v, p, t, now.(entries := all[i..end]), q.prev + i, q.prev + end)
  {
    var k, lo, hi := NextOf(v, p) - v.base, q.prev + i, q.prev + end;
    SliceOfRest(v.log, k, i, end);
    hide NextOf, Shape;
    var r, req := now.(entries := all[i..end]), Request(v, t, now.prev, lo, hi);
    assert r.entries == req.entries;
  }

  lemma SliceOfRest(s: seq<Entry>, k: nat, i: nat, j: nat)
    requires k <= |s| && i <= j <= |s| - k
    ensures s[k..][i..j] == s[k + i..k + j]
  {
  }

  lemma ReadyAgain(v: Server, p: NodeId, t: nat, q: AppendRequest, all: seq<Entry>, now: AppendRequest, end: nat)
    requires Pending(v, p, t, q, all) && Ready(v, t, now) && 0 < end <= |all|
    ensures var next := now.(prev := all[end - 1].index, prevTerm := all[end - 1].term);
            Ready(v, t, next) && next.prev == q.prev + end
  {
    var k := NextOf(v, p) - v.base;
    assert all[end - 1] == v.log[k + end - 1];
  }

  lemma {:induction false} SendableFrom(v: Server, p: NodeId, t: nat, q: AppendRequest, all: seq<Entry>,
                                        now: AppendRequest, i: nat, free: nat -> bool)
    requires Pending(v, p, t, q, all) && Ready(v, t, now) && now.prev <= q.prev + i
    ensures AllSendable(v, p, t, Batches(now, all, i, free))
    decreases |all| - i
  {
    hide SentAs, Pending, Ready;
    if i < |all| {
      var end := Min(i + MAX_ENTRIES_PER_BATCH, |all|);
      if free(i / MAX_ENTRIES_PER_BATCH) {
        var r, next := now.(entries := all[i..end]), now.(prev := all[end - 1].index, prevTerm := all[end - 1].term);
        OneSend(v, p, t, q, all, now, i, end);
        ReadyAgain(v, p, t, q, all, now, end);
        SendableFrom(v, p, t, q, all, next, i + MAX_ENTRIES_PER_BATCH, free);
        assert Sendable(v, p, t, r);
        assert Batches(now, all, i, free) == [r] + Batches(next, all, i + MAX_ENTRIES_PER_BATCH, free);
      } else {
        SendableFrom(v, p, t, q, all, now, i + MAX_ENTRIES_PER_BATCH, free);
      }
    }
  }

  /** Every batch is a `SendAppend` step of the cluster, whatever was skipped. */
  lemma {:induction false} BatchesAreSends(v: Server, p: NodeId, t: nat, q: AppendRequest, all: seq<Entry>,
                                           free: nat -> bool)
    requires Pending(v, p, t, q, all)
    ensures AllSendable(v, p, t, Batches(q, all, 0, free))
  {
    SendableFrom(v, p, t, q, all, q, 0, free);
  }
}
