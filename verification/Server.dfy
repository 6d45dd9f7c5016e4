/**
 One node as a value: the fields of the Raft struct with what is on its disk, and one function per
 handler that runs under the node's lock. `disk` is what a restart reads back.
 */
module Server {
  import opened Types

  type Store = map<string, string>

  datatype Snapshot = Snapshot(index: nat, term: nat, data: Store)

  datatype Disk = Disk(term: nat, votedFor: NodeId, peers: seq<NodeId>, log: seq<Entry>, snap: Option<Snapshot>)

  datatype Server = Server(
    id: NodeId,
    peers: seq<NodeId>,
    role: Role,
    term: nat,
    votes: nat,
    votedFor: NodeId,
    leader: NodeId,
    log: seq<Entry>,
    base: nat,
    commitIndex: nat,
    lastApplied: nat,
    nextIndex: map<NodeId, nat>,
    matchIndex: map<NodeId, nat>,
    snap: Option<Snapshot>,
    removed: bool,
    disk: Disk)

  datatype VoteReply = VoteReply(term: nat, granted: bool)

  datatype AppendRequest = AppendRequest(
    leader: NodeId, term: nat, prev: nat, prevTerm: nat, entries: seq<Entry>, commit: nat)

  datatype AppendReply = AppendReply(term: nat, success: bool)

  const EMPTY_DISK := Disk(0, NOBODY, [], [], None)

  // ------------------------------------------------------------------- helpers

  function Last(s: Server): nat { LastIndex(s.log, s.base) }

  /** A Go map read: a missing key reads as 0. */
  function Get(m: map<NodeId, nat>, k: NodeId): nat { if k in m then m[k] else 0 }

  /** Every peer at the same index. */
  function Each(peers: seq<NodeId>, i: nat): map<NodeId, nat> { map p | p in peers :: i }

  predicate Known(s: Server, id: NodeId) {
    id != NOBODY && (id == s.id || id in s.peers)
  }

  function Quorum(s: Server): nat { (|s.peers| + 1) / 2 + 1 }

  function SaveMeta(s: Server): Server {
    s.(disk := s.disk.(term := s.term, votedFor := s.votedFor, peers := s.peers))
  }

  function SaveLog(s: Server): Server {
    s.(disk := s.disk.(log := s.log))
  }

  /** Adopt a higher term and save it, as every RPC handler does. */
  function StepUp(s: Server, t: nat): Server {
    if t > s.term then SaveMeta(s.(term := t, votedFor := NOBODY, role := Follower)) else s
  }

  // ------------------------------------------------------------------ elections

  function BecomeLeader(s: Server): Server {
    s.(role := Leader, leader := s.id,
       nextIndex := s.nextIndex + Each(s.peers, Last(s) + 1),
       matchIndex := s.matchIndex + Each(s.peers, s.base))
  }

  function StartElection(s: Server): Server {
    if s.removed then s
    else
      var s1 := SaveMeta(s.(role := Candidate, term := s.term + 1, votedFor := s.id)).(votes := 1);
      if s1.votes >= Quorum(s1) then BecomeLeader(s1) else s1
  }

  function RequestVote(s: Server, cand: NodeId, t: nat, lastIndex: nat, lastTerm: nat): (Server, VoteReply) {
    if !Known(s, cand) || t < s.term then (s, VoteReply(s.term, false))
    else
      var s1 := StepUp(s, t);
      if UpToDate(lastTerm, lastIndex, LastTerm(s1.log), Last(s1)) && s1.votedFor in {NOBODY, cand}
      then (SaveMeta(s1.(votedFor := cand)), VoteReply(s.term, true))
      else (s1, VoteReply(s.term, false))
  }

  /** The one place where an adopted term is not saved. */
  function HandleVoteReply(s: Server, r: VoteReply): Server {
    if r.term > s.term then s.(term := r.term, role := Follower, votedFor := NOBODY)
    else if s.role != Candidate || !r.granted then s
    else
      var s1 := s.(votes := s.votes + 1);
      if s1.votes >= Quorum(s1) then BecomeLeader(s1) else s1
  }

  function TimeoutNow(s: Server, leader: NodeId, t: nat): Server {
    if leader != s.leader || t < s.term then s else StartElection(StepUp(s, t))
  }

  function TransferReply(s: Server, target: NodeId, t: nat): Server {
    if t > s.term then StepUp(s, t).(leader := target) else s
  }

  // ---------------------------------------------------------------- replication

  /** One turn of the append loop: skip what the snapshot covers, keep a match, cut at a conflict, append. */
  function MergeOne(log: seq<Entry>, base: nat, e: Entry): seq<Entry> {
    if e.index < base then log
    else if e.index - base < |log| then
      if log[e.index - base].term != e.term then log[..e.index - base] + [e] else log
    else log + [e]
  }

  function Merge(log: seq<Entry>, base: nat, es: seq<Entry>): seq<Entry> {
    if es == [] then log
    else MergeOne(Merge(log, base, es[..|es| - 1]), base, es[|es| - 1])
  }

  /** The consistency check; index 0 is never checked. */
  predicate PrevOk(s: Server, prev: nat, prevTerm: nat) {
    prev > 0 ==> EntryAt(s.log, s.base, prev).Some? && EntryAt(s.log, s.base, prev).value.term == prevTerm
  }

  function AppendEntries(s: Server, q: AppendRequest): (Server, AppendReply) {
    if !Known(s, q.leader) || q.term < s.term then (s, AppendReply(s.term, false))
    else
      var s1 := StepUp(s, q.term).(leader := q.leader);
      if !PrevOk(s1, q.prev, q.prevTerm) then (s1, AppendReply(s.term, false))
      else
        var s2 := SaveLog(s1.(log := Merge(s1.log, s1.base, q.entries)));
        (s2.(commitIndex := if q.commit > s2.commitIndex then Min(q.commit, Last(s2)) else s2.commitIndex),
         AppendReply(s.term, true))
  }

  function Propose(s: Server, cmd: Command): (Server, Option<nat>) {
    if s.role != Leader then (s, None)
    else
      var i := Last(s) + 1;
      (SaveLog(s.(log := s.log + [Entry(i, s.term, cmd)])), Some(i))
  }

  /** The peers believed to hold index n. */
  function Believed(peers: seq<NodeId>, m: map<NodeId, nat>, n: nat): seq<NodeId> {
    if peers == [] then []
    else
      var rest, p := Believed(peers[..|peers| - 1], m, n), peers[|peers| - 1];
      if Get(m, p) >= n then rest + [p] else rest
  }

  /** The number of nodes, self included, believed to hold index n. */
  function Holders(s: Server, n: nat): nat {
    1 + |Believed(s.peers, s.matchIndex, n)|
  }

  predicate Committable(s: Server, n: nat) {
    && EntryAt(s.log, s.base, n).Some?
    && EntryAt(s.log, s.base, n).value.term == s.term
    && Holders(s, n) >= Quorum(s)
  }

  /** The largest committable index in (commitIndex, n], or commitIndex if there is none. */
  function CommitScan(s: Server, n: nat): nat {
    if n <= s.commitIndex then s.commitIndex
    else if Committable(s, n) then n
    else CommitScan(s, n - 1)
  }

  function UpdateCommit(s: Server): Server {
    if s.role != Leader then s else s.(commitIndex := CommitScan(s, Last(s)))
  }

  function HandleAppendReply(s: Server, peer: NodeId, q: AppendRequest, r: AppendReply): Server {
    if r.term > s.term then StepUp(s, r.term)
    else if !r.success then
      if s.snap.Some? && Get(s.nextIndex, peer) <= s.snap.value.index then s
      else if Get(s.nextIndex, peer) > s.base + 1 then s.(nextIndex := s.nextIndex[peer := Get(s.nextIndex, peer) - 1])
      else s
    else if peer !in s.peers then s
    else if |q.entries| > 0 then
      var sent := q.entries[|q.entries| - 1].index;
      UpdateCommit(s.(matchIndex := s.matchIndex[peer := sent], nextIndex := s.nextIndex[peer := sent + 1]))
    else if q.prev >= s.base then
      UpdateCommit(s.(matchIndex := s.matchIndex[peer := q.prev], nextIndex := s.nextIndex[peer := q.prev + 1]))
    else UpdateCommit(s)
  }

  // ------------------------------------------------------------------- snapshots

  function KeepAfter(log: seq<Entry>, i: nat): seq<Entry> {
    if log == [] then []
    else if log[|log| - 1].index > i then KeepAfter(log[..|log| - 1], i) + [log[|log| - 1]]
    else KeepAfter(log[..|log| - 1], i)
  }

  /** Keep a boundary entry at the snapshot and the entries after it; snapshot and log reach the disk together. */
  function Compact(s: Server, sn: Snapshot): Server {
    var log := [Entry(sn.index, sn.term, Undecodable)] + KeepAfter(s.log, sn.index);
    s.(snap := Some(sn), log := log, base := sn.index, disk := s.disk.(log := log, snap := Some(sn)))
  }

  function CreateSnapshot(s: Server, data: Store): Server {
    match EntryAt(s.log, s.base, s.lastApplied)
    case None => s
    case Some(e) => Compact(s, Snapshot(s.lastApplied, e.term, data))
  }

  function InstallSnapshot(s: Server, t: nat, sn: Snapshot): Server {
    if t < s.term then s
    else Compact(StepUp(s, t), sn).(commitIndex := sn.index, lastApplied := sn.index)
  }

  /** The sender's bookkeeping after a snapshot call, whether or not the call succeeded. */
  function SnapshotSent(s: Server, peer: NodeId, i: nat): Server {
    s.(matchIndex := s.matchIndex[peer := i], nextIndex := s.nextIndex[peer := i + 1])
  }

  // ----------------------------------------------------- application and restart

  function Without(peers: seq<NodeId>, x: NodeId): seq<NodeId> {
    if peers == [] then []
    else if peers[|peers| - 1] == x then Without(peers[..|peers| - 1], x)
    else Without(peers[..|peers| - 1], x) + [peers[|peers| - 1]]
  }

  function ApplyConfig(s: Server, isAdd: bool, x: NodeId): Server {
    if x == s.id then
      if isAdd then s
      else SaveMeta(s.(removed := true, role := Follower, leader := NOBODY, votedFor := NOBODY, votes := 0,
                       peers := [], nextIndex := map[], matchIndex := map[]))
    else if isAdd then
      SaveMeta(if x in s.peers then s
               else s.(peers := s.peers + [x], nextIndex := s.nextIndex[x := Last(s) + 1],
                       matchIndex := s.matchIndex[x := 0]))
    else SaveMeta(s.(peers := Without(s.peers, x), nextIndex := s.nextIndex - {x}, matchIndex := s.matchIndex - {x}))
  }

  function ApplyCommand(s: Server, c: Command): Server {
    if c.ConfigChange? then ApplyConfig(s, c.isAdd, c.node) else s
  }

  predicate CanApply(s: Server) {
    s.commitIndex > s.lastApplied && EntryAt(s.log, s.base, s.lastApplied + 1).Some?
  }

  /** One turn of the applier: the entry goes to the apply channel after configuration changes took effect. */
  function ApplyNext(s: Server): (Server, Entry)
    requires CanApply(s)
  {
    var e := EntryAt(s.log, s.base, s.lastApplied + 1).value;
    (ApplyCommand(s.(lastApplied := s.lastApplied + 1), e.data), e)
  }

  /** Replay of every retained configuration entry, committed or not, from position k of the log. */
  function Replay(s: Server, k: nat): Server {
    if k == 0 then s
    else
      var s1 := Replay(s, k - 1);
      if k < |s1.log| then ApplyCommand(s1, s1.log[k].data) else s1
  }

  function LoadedLog(d: Disk): seq<Entry> {
    var es := if |d.log| == 0 then [ROOT] else d.log;
    match d.snap
    case None => es
    case Some(sn) =>
      if es[0].index != sn.index then [Entry(sn.index, sn.term, Undecodable)] + es
      else es[0 := es[0].(index := sn.index, term := sn.term)]
  }

  function LoadedBase(d: Disk): nat {
    match d.snap
    case None => if |d.log| == 0 then 0 else d.log[0].index
    case Some(sn) => sn.index
  }

  /** The struct literal in `New`, before configuration entries are replayed. */
  function Loaded(id: NodeId, initial: seq<NodeId>, d: Disk): Server {
    Server(id, if |d.peers| > 0 then d.peers else initial, Follower, d.term, 0, d.votedFor, NOBODY,
           LoadedLog(d), LoadedBase(d), 0, 0, map[], map[], d.snap, false, d)
  }

  /** The rest of `New`: peer indices, then progress from the snapshot. */
  function Started(s: Server): Server {
    var s1 := s.(nextIndex := s.nextIndex + Each(s.peers, Last(s) + 1), matchIndex := s.matchIndex + Each(s.peers, 0));
    if s.snap.Some? then s1.(commitIndex := s.snap.value.index, lastApplied := s.snap.value.index) else s1
  }

  /** The number of log positions `New` replays. */
  function Replayed(s: Server): nat { if Last(s) > s.base then Last(s) - s.base else 0 }

  function Recovered(s: Server): Server { Started(Replay(s, Replayed(s))) }

  /** What `New` builds from the disk. */
  function Boot(id: NodeId, initial: seq<NodeId>, d: Disk): Server { Recovered(Loaded(id, initial, d)) }
}
