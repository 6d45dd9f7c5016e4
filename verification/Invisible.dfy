/** Compaction is invisible: a node that snapshots its log answers like one that never does. */
module Invisible {
  import opened Types
  import opened Server
  import opened Compaction
  import opened Merging
  import opened Batching

  /** The match indices agree, except among those at or below c, which no commit looks at again. */
  ghost predicate SameAbove(m: map<NodeId, nat>, m': map<NodeId, nat>, c: nat) {
    forall p :: SameAt(m, m', c, p)
  }

  predicate SameAt(m: map<NodeId, nat>, m': map<NodeId, nat>, c: nat, p: NodeId) {
    Get(m, p) == Get(m', p) || (Get(m, p) <= c && Get(m', p) <= c)
  }

  ghost predicate SameFields(v: Server, u: Server) {
    u == v.(log := u.log, base := 0, nextIndex := u.nextIndex, matchIndex := u.matchIndex, snap := None,
            disk := v.disk.(log := u.log, snap := None))
  }

  ghost predicate Stored(v: Server) {
    v.disk.log == v.log && v.disk.snap == v.snap && v.base <= v.lastApplied <= v.commitIndex
  }

  /** Node v is node u, which keeps its full log and has no snapshot, with the log compacted. */
  ghost predicate Hides(v: Server, u: Server) {
    && SameFields(v, u) && Compacts(v.log, v.base, u.log) && Shape(u.log, 0)
    && Stored(v) && v.commitIndex < |u.log| && SameAbove(v.matchIndex, u.matchIndex, v.commitIndex)
  }

  lemma HiddenFacts(v: Server, u: Server)
    requires Hides(v, u)
    ensures Shape(v.log, v.base) && Last(v) == Last(u) == |u.log| - 1 && LastTerm(v.log) == LastTerm(u.log)
    ensures forall i :: v.base < i ==> EntryAt(v.log, v.base, i) == EntryAt(u.log, 0, i)
    ensures EntryAt(v.log, v.base, v.base).Some? && EntryAt(v.log, v.base, v.base).value.term == u.log[v.base].term
  {
    hide SameFields, SameAbove;
    forall k | 0 <= k < |v.log| ensures v.log[k].index == v.base + k {
      if k > 0 { assert v.log[k] == u.log[v.base + k]; }
    }
    forall i | v.base < i ensures EntryAt(v.log, v.base, i) == EntryAt(u.log, 0, i) {
      if i < |u.log| { assert v.log[i - v.base] == u.log[i]; }
    }
    assert |v.log| > 1 ==> v.log[|v.log| - 1] == u.log[|u.log| - 1];
  }

  // ------------------------------------------------------------ votes and elections

  lemma StepUpIsSame(v: Server, u: Server, t: nat)
    requires Hides(v, u)
    ensures Hides(StepUp(v, t), StepUp(u, t))
    ensures var w := StepUp(v, t); w.log == v.log && w.base == v.base && w.commitIndex == v.commitIndex
    ensures StepUp(u, t).log == u.log
  {
    hide Compacts, Shape, SameAbove;
  }

  lemma VoteIsSame(v: Server, u: Server, cand: NodeId, t: nat, lastIndex: nat, lastTerm: nat)
    requires Hides(v, u)
    ensures var (w, r) := RequestVote(v, cand, t, lastIndex, lastTerm);
            var (x, o) := RequestVote(u, cand, t, lastIndex, lastTerm);
            r == o && Hides(w, x)
  {
    HiddenFacts(v, u);
    StepUpIsSame(v, u, t);
    hide Compacts, Shape, SameAbove, EntryAt;
  }

  /** The books may change, as long as the match indices still agree above the commit index. */
  lemma BookIsSame(v: Server, u: Server, next: map<NodeId, nat>, next': map<NodeId, nat>,
                   matched: map<NodeId, nat>, matched': map<NodeId, nat>)
    requires Hides(v, u) && SameAbove(matched, matched', v.commitIndex)
    ensures Hides(v.(matchIndex := matched, nextIndex := next), u.(matchIndex := matched', nextIndex := next'))
  {
    hide Compacts, Shape, SameAbove;
  }

  lemma OfficeBooks(m: map<NodeId, nat>, m': map<NodeId, nat>, peers: seq<NodeId>, base: nat, c: nat)
    requires SameAbove(m, m', c) && base <= c
    ensures SameAbove(m + Each(peers, base), m' + Each(peers, 0), c)
  {
    var n, n' := m + Each(peers, base), m' + Each(peers, 0);
    forall p ensures SameAt(n, n', c, p) {
      assert SameAt(m, m', c, p);
    }
  }

  lemma OneBook(m: map<NodeId, nat>, m': map<NodeId, nat>, p: NodeId, i: nat, c: nat)
    requires SameAbove(m, m', c)
    ensures SameAbove(m[p := i], m'[p := i], c) && SameAbove(m - {p}, m' - {p}, c)
    ensures i <= c && Get(m, p) <= c ==> SameAbove(m, m'[p := i], c) && SameAbove(m[p := i], m', c)
  {
    var n, n', k, k' := m[p := i], m'[p := i], m - {p}, m' - {p};
    forall x ensures SameAt(n, n', c, x) { assert SameAt(m, m', c, x); }
    forall x ensures SameAt(k, k', c, x) { assert SameAt(m, m', c, x); }
    if i <= c && Get(m, p) <= c {
      assert SameAt(m, m', c, p);
      forall x ensures SameAt(m, n', c, x) { assert SameAt(m, m', c, x); }
      forall x ensures SameAt(n, m', c, x) { assert SameAt(m, m', c, x); }
    }
  }

  lemma NoBooks(c: nat)
    ensures SameAbove(map[], map[], c)
  {
  }

  /** Taking office puts the match indices at the base; a full log's base is 0. */
  lemma OfficeIsSame(v: Server, u: Server)
    requires Hides(v, u)
    ensures Hides(BecomeLeader(v), BecomeLeader(u))
  {
    hide Compacts, Shape, SameAbove, Each;
    var w, x := BecomeLeader(v), BecomeLeader(u);
    OfficeBooks(v.matchIndex, u.matchIndex, v.peers, v.base, v.commitIndex);
    BookIsSame(v, u, w.nextIndex, x.nextIndex, w.matchIndex, x.matchIndex);
  }

  lemma ElectionIsSame(v: Server, u: Server)
    requires Hides(v, u)
    ensures Hides(StartElection(v), StartElection(u))
  {
    var v1 := SaveMeta(v.(role := Candidate, term := v.term + 1, votedFor := v.id)).(votes := 1);
    var u1 := SaveMeta(u.(role := Candidate, term := u.term + 1, votedFor := u.id)).(votes := 1);
    hide Compacts, Shape, SameAbove, BecomeLeader;
    assert Hides(v1, u1);
    OfficeIsSame(v1, u1);
  }

  lemma VoteReplyIsSame(v: Server, u: Server, r: VoteReply)
    requires Hides(v, u)
    ensures Hides(HandleVoteReply(v, r), HandleVoteReply(u, r))
  {
    var v1, u1 := v.(votes := v.votes + 1), u.(votes := u.votes + 1);
    hide Compacts, Shape, SameAbove, BecomeLeader;
    assert Hides(v1, u1);
    OfficeIsSame(v1, u1);
  }

  lemma TimeoutIsSame(v: Server, u: Server, leader: NodeId, t: nat)
    requires Hides(v, u)
    ensures Hides(TimeoutNow(v, leader, t), TimeoutNow(u, leader, t))
  {
    StepUpIsSame(v, u, t);
    hide Compacts, Shape, SameAbove, StartElection, StepUp;
    ElectionIsSame(StepUp(v, t), StepUp(u, t));
  }

  lemma TransferIsSame(v: Server, u: Server, target: NodeId, t: nat)
    requires Hides(v, u)
    ensures Hides(TransferReply(v, target, t), TransferReply(u, target, t))
  {
    StepUpIsSame(v, u, t);
    hide Compacts, Shape, SameAbove, StepUp;
  }

  // ------------------------------------------------------------------ appending

  lemma MergeOneSame(log: seq<Entry>, base: nat, full: seq<Entry>, e: Entry)
    requires Compacts(log, base, full) && base < e.index <= |full|
    ensures Compacts(MergeOne(log, base, e), base, MergeOne(full, 0, e))
  {
    if e.index < |full| { assert log[e.index - base] == full[e.index]; }
    var now, want := MergeOne(log, base, e), MergeOne(full, 0, e);
    forall i | base < i < |want| ensures now[i - base] == want[i] {
      if i < |full| { assert log[i - base] == full[i]; }
    }
  }

  lemma {:induction false} MergeIsSame(log: seq<Entry>, base: nat, full: seq<Entry>, lo: nat, es: seq<Entry>)
    requires Compacts(log, base, full) && Shape(full, 0) && Contiguous(es, lo) && base <= lo < |full|
    ensures Compacts(Merge(log, base, es), base, Merge(full, 0, es)) && Shape(Merge(full, 0, es), 0)
  {
    MergeHolds(full, 0, lo, es);
    if es != [] {
      var front := es[..|es| - 1];
      MergeIsSame(log, base, full, lo, front);
      MergeHolds(full, 0, lo, front);
      MergeOneSame(Merge(log, base, front), base, Merge(full, 0, front), es[|es| - 1]);
    }
  }

  lemma CheckIsSame(v: Server, u: Server, prev: nat, prevTerm: nat)
    requires Hides(v, u) && v.base <= prev
    ensures PrevOk(v, prev, prevTerm) <==> PrevOk(u, prev, prevTerm)
    ensures prev > 0 && PrevOk(v, prev, prevTerm) ==> prev < |u.log|
  {
    HiddenFacts(v, u);
    hide Compacts;
  }

  lemma LastIsSame(log: seq<Entry>, base: nat, full: seq<Entry>)
    requires Compacts(log, base, full) && Shape(full, 0)
    ensures LastIndex(log, base) == LastIndex(full, 0) == |full| - 1
  {
    assert |log| > 1 ==> log[|log| - 1] == full[|full| - 1];
  }

  /** The sender is a member and its term is not stale. */
  predicate Current(s: Server, q: AppendRequest) { Known(s, q.leader) && s.term <= q.term }

  /** A rejected request, field by field. */
  lemma RejectedIs(s: Server, q: AppendRequest)
    requires !(Current(s, q) && PrevOk(s, q.prev, q.prevTerm))
    ensures AppendEntries(s, q).1 == AppendReply(s.term, false)
    ensures AppendEntries(s, q).0 == if Current(s, q) then StepUp(s, q.term).(leader := q.leader) else s
  {
    hide Merge;
  }

  lemma RejectIsSame(v: Server, u: Server, q: AppendRequest)
    requires Hides(v, u) && (Current(v, q) ==> v.base <= q.prev && !PrevOk(v, q.prev, q.prevTerm))
    ensures var (w, r) := AppendEntries(v, q);
            var (x, o) := AppendEntries(u, q);
            r == o && Hides(w, x) && !r.success && x.log == u.log
  {
    if Current(v, q) { CheckIsSame(v, u, q.prev, q.prevTerm); }
    StepUpIsSame(v, u, q.term);
    hide Compacts, Shape, SameAbove, PrevOk, AppendEntries, StepUp;
    RejectedIs(v, q);
    RejectedIs(u, q);
  }

  /**
   What a follower may count on in a request of a current leader: it starts at or above the base and, when it
   passes the check, is contiguous and contradicts nothing committed. Of any other request nothing is asked.
   */
  ghost predicate Sound(v: Server, q: AppendRequest) {
    Current(v, q) ==>
      && v.base <= q.prev
      && (PrevOk(v, q.prev, q.prevTerm) ==>
            && Contiguous(q.entries, q.prev)
            && forall k :: 0 <= k < |q.entries| && Conflicts(v.log, v.base, q.entries[k]) ==>
                 q.entries[k].index > v.commitIndex)
  }

  lemma AcceptIsSame(v: Server, u: Server, q: AppendRequest)
    requires Hides(v, u) && Sound(v, q) && Acceptable(v, q)
    ensures var (w, r) := AppendEntries(v, q);
            var (x, o) := AppendEntries(u, q);
            r == o && Hides(w, x) && r.success && x.log == Merge(u.log, 0, q.entries)
  {
    CheckIsSame(v, u, q.prev, q.prevTerm);
    StepUpIsSame(v, u, q.term);
    LastIsSame(v.log, v.base, u.log);
    AcceptableReaches(v, q);
    MergeIsSame(v.log, v.base, u.log, q.prev, q.entries);
    LastIsSame(Merge(v.log, v.base, q.entries), v.base, Merge(u.log, 0, q.entries));
    MergeKeepsThrough(v.log, v.base, q.prev, q.entries, v.commitIndex);
    hide AppendEntries, StepUp, Compacts, Shape, PrevOk, Merge, Contiguous, SameAbove, Known, LastIndex;
    AcceptedIs(v, q);
    AcceptedIs(u, q);
    SameReplyTerm(v, q);
    SameReplyTerm(u, q);
    RaisedAbove(v.matchIndex, u.matchIndex, v.commitIndex, AppendEntries(v, q).0.commitIndex);
  }

  lemma RaisedAbove(m: map<NodeId, nat>, m': map<NodeId, nat>, c: nat, d: nat)
    requires SameAbove(m, m', c)
    ensures c <= d ==> SameAbove(m, m', d)
  {
    if c <= d {
      forall p ensures SameAt(m, m', d, p) { assert SameAt(m, m', c, p); }
    }
  }

  lemma SameReplyTerm(s: Server, q: AppendRequest)
    ensures AppendEntries(s, q).1.term == s.term
  {
    hide Merge;
  }

  lemma AppendIsSame(v: Server, u: Server, q: AppendRequest)
    requires Hides(v, u) && Sound(v, q)
    ensures var (w, r) := AppendEntries(v, q);
            var (x, o) := AppendEntries(u, q);
            r == o && Hides(w, x) && x.log == if r.success then Merge(u.log, 0, q.entries) else u.log
  {
    HiddenFacts(v, u);
    if Current(v, q) && PrevOk(v, q.prev, q.prevTerm) {
      hide Compacts, SameAbove, AppendEntries;
      AcceptIsSame(v, u, q);
    } else {
      RejectIsSame(v, u, q);
      hide *;
    }
  }

  // --------------------------------------------- proposals, commits, application

  lemma ProposeIsSame(v: Server, u: Server, cmd: Command)
    requires Hides(v, u)
    ensures Propose(v, cmd).1 == Propose(u, cmd).1 && Hides(Propose(v, cmd).0, Propose(u, cmd).0)
  {
    HiddenFacts(v, u);
    hide SameAbove;
  }

  lemma {:induction false} BelievedIsSame(peers: seq<NodeId>, m: map<NodeId, nat>, m': map<NodeId, nat>, c: nat, n: nat)
    requires SameAbove(m, m', c) && n > c
    ensures Believed(peers, m, n) == Believed(peers, m', n)
  {
    if peers != [] {
      var p := peers[|peers| - 1];
      BelievedIsSame(peers[..|peers| - 1], m, m', c, n);
      assert SameAt(m, m', c, p);
    }
  }

  lemma {:induction false} ScanIsSame(v: Server, u: Server, n: nat)
    requires Hides(v, u)
    ensures CommitScan(u, n) == CommitScan(v, n) && v.commitIndex <= CommitScan(v, n) <= Max(v.commitIndex, n)
  {
    if n > v.commitIndex {
      ScanIsSame(v, u, n - 1);
      HiddenFacts(v, u);
      BelievedIsSame(v.peers, v.matchIndex, u.matchIndex, v.commitIndex, n);
      hide Compacts, Shape, SameAbove, Believed;
      assert EntryAt(v.log, v.base, n) == EntryAt(u.log, 0, n);
    }
  }

  lemma CountIsSame(v: Server, u: Server)
    requires Hides(v, u)
    ensures Hides(UpdateCommit(v), UpdateCommit(u)) && UpdateCommit(v).commitIndex == UpdateCommit(u).commitIndex
  {
    HiddenFacts(v, u);
    ScanIsSame(v, u, Last(v));
    hide CommitScan, Compacts, Shape, SameAbove, EntryAt, LastTerm;
    RaisedAbove(v.matchIndex, u.matchIndex, v.commitIndex, UpdateCommit(v).commitIndex);
  }

  lemma ConfigIsSame(v: Server, u: Server, isAdd: bool, x: NodeId)
    requires Hides(v, u)
    ensures Hides(ApplyConfig(v, isAdd, x), ApplyConfig(u, isAdd, x))
  {
    HiddenFacts(v, u);
    hide Compacts, Shape, Without, EntryAt, LastTerm, SameAbove, Last;
    if x == v.id {
      NoBooks(v.commitIndex);
    } else if isAdd {
      OneBook(v.matchIndex, u.matchIndex, x, 0, v.commitIndex);
    } else {
      OneBook(v.matchIndex, u.matchIndex, x, 0, v.commitIndex);
    }
  }

  lemma ApplyIsSame(v: Server, u: Server)
    requires Hides(v, u)
    ensures CanApply(v) <==> CanApply(u)
    ensures CanApply(v) ==>
              var (w, e) := ApplyNext(v);
              var (x, d) := ApplyNext(u);
              e == d && Hides(w, x)
  {
    hide Hides, CanApply, ApplyNext, ApplyCommand;
    DueIsSame(v, u);
    if CanApply(v) {
      AppliedIs(v);
      AppliedIs(u);
      OneAppliedIsSame(v, u, ApplyNext(v).1.data);
    }
  }

  lemma DueIsSame(v: Server, u: Server)
    requires Hides(v, u)
    ensures CanApply(v) <==> CanApply(u)
    ensures CanApply(v) ==> ApplyNext(v).1 == ApplyNext(u).1 && v.lastApplied < v.commitIndex
  {
    HiddenFacts(v, u);
    assert EntryAt(v.log, v.base, v.lastApplied + 1) == EntryAt(u.log, 0, v.lastApplied + 1);
    hide Compacts, Shape, ApplyCommand, EntryAt, SameAbove, Last, LastTerm;
  }

  lemma AppliedIs(s: Server)
    requires CanApply(s)
    ensures ApplyNext(s).0 == ApplyCommand(s.(lastApplied := s.lastApplied + 1), ApplyNext(s).1.data)
  {
    hide ApplyCommand;
  }

  lemma OneAppliedIsSame(v: Server, u: Server, c: Command)
    requires Hides(v, u) && v.lastApplied < v.commitIndex
    ensures Hides(ApplyCommand(v.(lastApplied := v.lastApplied + 1), c),
                  ApplyCommand(u.(lastApplied := u.lastApplied + 1), c))
  {
    hide Compacts, Shape, ApplyConfig, SameAbove;
    var v1, u1 := v.(lastApplied := v.lastApplied + 1), u.(lastApplied := u.lastApplied + 1);
    assert Hides(v1, u1);
    hide Hides, SameFields;
    if c.ConfigChange? { ConfigIsSame(v1, u1, c.isAdd, c.node); }
  }

  lemma SnapIsSame(v: Server, u: Server, data: Store)
    requires Hides(v, u)
    ensures Hides(CreateSnapshot(v, data), u)
  {
    HiddenFacts(v, u);
    if EntryAt(v.log, v.base, v.lastApplied).Some? {
      CutCompacts(v.log, v.base, u.log, v.lastApplied, u.log[v.lastApplied].term);
    }
    hide Compacts, Shape, KeepAfter, SameAbove;
  }

  // ------------------------------------------------------------- the leader's books

  /**
   A success is booked alike, unless it answers an empty request from below the base for a peer known to hold
   more than what is committed.
   */
  predicate Booked(v: Server, peer: NodeId, q: AppendRequest, r: AppendReply) {
    r.success && r.term <= v.term && peer in v.peers && q.entries == [] && q.prev < v.base ==>
      Get(v.matchIndex, peer) <= v.commitIndex
  }

  lemma ReplyIsSame(v: Server, u: Server, peer: NodeId, q: AppendRequest, r: AppendReply)
    requires Hides(v, u) && Booked(v, peer, q, r)
    ensures Hides(HandleAppendReply(v, peer, q, r), HandleAppendReply(u, peer, q, r))
  {
    StepUpIsSame(v, u, r.term);
    if r.term <= v.term && r.success && peer in v.peers {
      SuccessIsSame(v, u, peer, q, r);
    } else {
      FailureIsSame(v, u, peer, q, r);
    }
  }

  /** The index a success speaks for. */
  function Acked(q: AppendRequest): nat {
    if |q.entries| > 0 then q.entries[|q.entries| - 1].index else q.prev
  }

  /** A booked success, as a setting of the two indices. */
  lemma SuccessIs(s: Server, peer: NodeId, q: AppendRequest, r: AppendReply)
    requires r.term <= s.term && r.success && peer in s.peers
    ensures var s1 := if q.entries == [] && q.prev < s.base then s else SnapshotSent(s, peer, Acked(q));
            HandleAppendReply(s, peer, q, r) == UpdateCommit(s1)
  {
    hide UpdateCommit;
  }

  lemma BothBooked(v: Server, u: Server, peer: NodeId, i: nat)
    requires Hides(v, u)
    ensures Hides(SnapshotSent(v, peer, i), SnapshotSent(u, peer, i))
    ensures i <= v.commitIndex && Get(v.matchIndex, peer) <= v.commitIndex ==>
              Hides(v, SnapshotSent(u, peer, i)) && Hides(SnapshotSent(v, peer, i), u)
  {
    hide Compacts, Shape, SameAbove;
    OneBook(v.matchIndex, u.matchIndex, peer, i, v.commitIndex);
  }

  lemma SuccessIsSame(v: Server, u: Server, peer: NodeId, q: AppendRequest, r: AppendReply)
    requires Hides(v, u) && Booked(v, peer, q, r) && r.term <= v.term && r.success && peer in v.peers
    ensures Hides(HandleAppendReply(v, peer, q, r), HandleAppendReply(u, peer, q, r))
  {
    hide Hides, UpdateCommit, SameAbove, SnapshotSent, HandleAppendReply, Get;
    SameTermAndPeers(v, u);
    SuccessIs(v, peer, q, r);
    SuccessIs(u, peer, q, r);
    BothBooked(v, u, peer, Acked(q));
    CountIsSame(if q.entries == [] && q.prev < v.base then v else SnapshotSent(v, peer, Acked(q)),
                SnapshotSent(u, peer, Acked(q)));
  }

  lemma SameTermAndPeers(v: Server, u: Server)
    requires Hides(v, u)
    ensures u.term == v.term && u.peers == v.peers && u.base == 0 && v.base <= v.commitIndex
    ensures SameAbove(v.matchIndex, u.matchIndex, v.commitIndex)
  {
  }

  lemma FailureIsSame(v: Server, u: Server, peer: NodeId, q: AppendRequest, r: AppendReply)
    requires Hides(v, u) && Hides(StepUp(v, r.term), StepUp(u, r.term))
    requires r.term > v.term || !r.success || peer !in v.peers
    ensures Hides(HandleAppendReply(v, peer, q, r), HandleAppendReply(u, peer, q, r))
  {
    hide Compacts, Shape, SameAbove, UpdateCommit, StepUp;
  }

  // ------------------------------------------------------------------- whole runs

  datatype Op =
    | Vote(cand: NodeId, t: nat, lastIndex: nat, lastTerm: nat)
    | Elect
    | Voted(reply: VoteReply)
    | Timeout(leader: NodeId, t: nat)
    | Transferred(target: NodeId, t: nat)
    | Append(q: AppendRequest)
    | Appended(peer: NodeId, sent: AppendRequest, answer: AppendReply)
    | Submit(cmd: Command)
    | Count
    | Apply
    | Snap(data: Store)
    | SnapSent(peer: NodeId, i: nat)

  /** What a caller or a peer sees of an operation. */
  datatype Out =
    | Ballot(v: VoteReply)
    | Answer(a: AppendReply)
    | Index(i: Option<nat>)
    | Delivered(e: Option<Entry>)
    | Status(role: Role, term: nat, leader: NodeId, commit: nat)

  function StatusOf(s: Server): Out { Status(s.role, s.term, s.leader, s.commitIndex) }

  function Seen(s: Server): (Server, Out) { (s, StatusOf(s)) }

  function Do(s: Server, op: Op): (Server, Out) {
    match op
    case Vote(c, t, li, lt) => var (w, r) := RequestVote(s, c, t, li, lt); (w, Ballot(r))
    case Elect => Seen(StartElection(s))
    case Voted(r) => Seen(HandleVoteReply(s, r))
    case Timeout(l, t) => Seen(TimeoutNow(s, l, t))
    case Transferred(x, t) => Seen(TransferReply(s, x, t))
    case Append(q) => var (w, r) := AppendEntries(s, q); (w, Answer(r))
    case Appended(p, q, r) => Seen(HandleAppendReply(s, p, q, r))
    case Submit(cmd) => var (w, r) := Propose(s, cmd); (w, Index(r))
    case Count => Seen(UpdateCommit(s))
    case Apply => if CanApply(s) then (var (w, e) := ApplyNext(s); (w, Delivered(Some(e)))) else (s, Delivered(None))
    case Snap(data) => Seen(CreateSnapshot(s, data))
    case SnapSent(p, i) => Seen(SnapshotSent(s, p, i))
  }

  /** The same, on a node that never snapshots. */
  function DoPlain(s: Server, op: Op): (Server, Out) {
    if op.Snap? || op.SnapSent? then Seen(s) else Do(s, op)
  }

  function Outputs(s: Server, ops: seq<Op>): seq<Out>
    decreases |ops|
  {
    if ops == [] then []
    else
      var (w, o) := Do(s, ops[0]);
      [o] + Outputs(w, ops[1..])
  }

  function PlainOutputs(s: Server, ops: seq<Op>): seq<Out>
    decreases |ops|
  {
    if ops == [] then []
    else
      var (w, o) := DoPlain(s, ops[0]);
      [o] + PlainOutputs(w, ops[1..])
  }

  ghost predicate OpSound(s: Server, op: Op) {
    match op
    case Append(q) => Sound(s, q)
    case Appended(p, q, r) => Booked(s, p, q, r)
    case SnapSent(p, i) => i <= s.commitIndex && Get(s.matchIndex, p) <= s.commitIndex
    case _ => true
  }

  /** Every operation is sound for the node at that moment. */
  ghost predicate AllSound(s: Server, ops: seq<Op>)
    decreases |ops|
  {
    ops != [] ==> OpSound(s, ops[0]) && AllSound(Do(s, ops[0]).0, ops[1..])
  }

  lemma SameStatus(v: Server, u: Server)
    requires Hides(v, u)
    ensures StatusOf(v) == StatusOf(u)
  {
  }

  lemma DoIsSame(v: Server, u: Server, op: Op)
    requires Hides(v, u) && OpSound(v, op)
    ensures Do(v, op).1 == DoPlain(u, op).1 && Hides(Do(v, op).0, DoPlain(u, op).0)
  {
    hide Hides, Sound, Booked, StatusOf, RequestVote, StartElection, HandleVoteReply, TimeoutNow, TransferReply,
         AppendEntries, HandleAppendReply, Propose, UpdateCommit, CreateSnapshot, SnapshotSent, ApplyNext, CanApply,
           Get;
    match op {
    case Vote(c, t, li, lt) => VoteIsSame(v, u, c, t, li, lt);
    case Elect => ElectionIsSame(v, u);
    case Voted(r) => VoteReplyIsSame(v, u, r);
    case Timeout(l, t) => TimeoutIsSame(v, u, l, t);
    case Transferred(x, t) => TransferIsSame(v, u, x, t);
    case Append(q) => AppendIsSame(v, u, q);
    case Appended(p, q, r) => ReplyIsSame(v, u, p, q, r);
    case Submit(cmd) => ProposeIsSame(v, u, cmd);
    case Count => CountIsSame(v, u);
    case Apply => ApplyIsSame(v, u);
    case Snap(data) => SnapIsSame(v, u, data);
    case SnapSent(p, i) => BothBooked(v, u, p, i);
    }
    SameStatus(Do(v, op).0, DoPlain(u, op).0);
  }

  /** Over any run of sound operations, leading and following, the outputs are the same. */
  lemma {:induction false} CompactionIsInvisible(v: Server, u: Server, ops: seq<Op>)
    requires Hides(v, u) && AllSound(v, ops)
    ensures Outputs(v, ops) == PlainOutputs(u, ops)
    decreases |ops|
  {
    hide Hides, Do, DoPlain, OpSound;
    if ops != [] {
      DoIsSame(v, u, ops[0]);
      CompactionIsInvisible(Do(v, ops[0]).0, DoPlain(u, ops[0]).0, ops[1..]);
    }
  }

  function Ones(m: map<NodeId, nat>, p: NodeId): nat { if Get(m, p) >= 2 then 1 else 0 }

  lemma {:induction false} OneMoreBelieved(ps: seq<NodeId>, p: NodeId, m: map<NodeId, nat>)
    ensures |Believed(ps + [p], m, 2)| == |Believed(ps, m, 2)| + Ones(m, p)
  {
    assert (ps + [p])[..|ps|] == ps;
  }

  /** A leader of five whose last entry, at index 2, is of its own term commits it with two acknowledgements. */
  lemma FiveCommit(s: Server)
    requires s.peers == ["b", "c", "d", "e"] && s.role == Leader && s.commitIndex == 1 && Last(s) == 2
    requires EntryAt(s.log, s.base, 2).Some? && EntryAt(s.log, s.base, 2).value.term == s.term
    ensures var m := s.matchIndex;
            UpdateCommit(s) == s.(commitIndex := if Ones(m, "b") + Ones(m, "c") + Ones(m, "d") + Ones(m, "e") >= 2
                                  then 2 else 1)
  {
    OneMoreBelieved([], "b", s.matchIndex);
    OneMoreBelieved(["b"], "c", s.matchIndex);
    OneMoreBelieved(["b", "c"], "d", s.matchIndex);
    OneMoreBelieved(["b", "c", "d"], "e", s.matchIndex);
    assert [] + ["b"] == ["b"] && ["b"] + ["c"] == ["b", "c"] && ["b", "c"] + ["d"] == ["b", "c", "d"];
    assert ["b", "c", "d"] + ["e"] == s.peers;
    hide Believed, Get;
    assert CommitScan(s, 1) == 1;
  }

  const FIRST := Entry(1, 1, Undecodable)
  const SECOND := Entry(2, 1, Undecodable)

  /** The leader of five nodes, with its first entry committed and its second acknowledged by "b". */
  function LeaderOfFive(log: seq<Entry>, base: nat, snap: Option<Snapshot>): Server {
    Server("a", ["b", "c", "d", "e"], Leader, 1, 3, "a", "a", log, base, 1, 1, map[], map["b" := 2], snap, false,
           Disk(1, "a", ["b", "c", "d", "e"], log, snap))
  }

  const COMPACTED := LeaderOfFive([FIRST, SECOND], 1, Some(Snapshot(1, 1, map[])))
  const FULL := LeaderOfFive([ROOT, FIRST, SECOND], 0, None)
  const LATE := Appended("b", AppendRequest("a", 1, 0, 0, [], 1), AppendReply(1, true))
  const NEXT := Appended("c", AppendRequest("a", 1, 1, 1, [SECOND], 1), AppendReply(1, true))

  lemma LateOnCompacted()
    ensures Do(COMPACTED, LATE).0 == COMPACTED && Do(COMPACTED, NEXT).1 == Status(Leader, 1, "a", 2)
  {
    FiveCommit(COMPACTED);
    FiveCommit(SnapshotSent(COMPACTED, "c", 2));
    hide UpdateCommit;
    SuccessIs(COMPACTED, "b", LATE.sent, LATE.answer);
    SuccessIs(COMPACTED, "c", NEXT.sent, NEXT.answer);
    hide HandleAppendReply;
  }

  lemma LateOnFull()
    ensures DoPlain(DoPlain(FULL, LATE).0, NEXT).1 == Status(Leader, 1, "a", 1)
  {
    var x := SnapshotSent(FULL, "b", 0);
    FiveCommit(x);
    FiveCommit(SnapshotSent(x, "c", 2));
    hide UpdateCommit;
    SuccessIs(FULL, "b", LATE.sent, LATE.answer);
    SuccessIs(x, "c", NEXT.sent, NEXT.answer);
    hide HandleAppendReply;
  }

  /**
   Why a late answer must be excluded: a success to a heartbeat from below the base lowers the match index on the
   full log only, and the next acknowledgement commits on the compacted node alone.
   */
  lemma LateAnswerShows()
    ensures Hides(COMPACTED, FULL) && !OpSound(COMPACTED, LATE) && OpSound(COMPACTED, NEXT)
    ensures Outputs(COMPACTED, [LATE, NEXT]) != PlainOutputs(FULL, [LATE, NEXT])
  {
    assert Hides(COMPACTED, FULL);
    assert !Booked(COMPACTED, "b", LATE.sent, LATE.answer);
    hide Do, DoPlain;
    LateOnCompacted();
    LateOnFull();
    TwoOutputs(COMPACTED, LATE, NEXT);
    TwoOutputs(FULL, LATE, NEXT);
  }

  lemma {:induction false} TwoOutputs(s: Server, a: Op, b: Op)
    ensures Outputs(s, [a, b]) == [Do(s, a).1, Do(Do(s, a).0, b).1]
    ensures PlainOutputs(s, [a, b]) == [DoPlain(s, a).1, DoPlain(DoPlain(s, a).0, b).1]
  {
    hide Do, DoPlain;
    assert [a, b][1..] == [b] && [b][1..] == [];
    assert Outputs(Do(s, a).0, [b]) == [Do(Do(s, a).0, b).1];
    assert PlainOutputs(DoPlain(s, a).0, [b]) == [DoPlain(DoPlain(s, a).0, b).1];
  }
}
