/** Where a node's fields come from, over every run of it, whatever it is sent and however often it restarts. */
module Histories {
  import opened Types
  import opened Server
  import opened NodeRuns
  import H = Handlers

  ghost predicate Stepped(states: seq<Server>, steps: seq<Step>, i: int) {
    0 <= i < |steps| && i + 1 < |states| && states[i + 1] == Take(states[i], steps[i])
  }

  /** A node from first boot on, with nothing asked of its steps. */
  ghost predicate AnyRun(states: seq<Server>, steps: seq<Step>) {
    && |states| == |steps| + 1
    && (exists id, initial :: states[0] == Boot(id, initial, EMPTY_DISK))
    && forall i {:trigger Stepped(states, steps, i)} :: 0 <= i < |steps| ==> Stepped(states, steps, i)
  }

  // --------------------------------------------------------------- removed nodes

  /** A node that applied its own removal follows. */
  predicate Retired(s: Server) { s.removed ==> s.role == Follower }

  lemma CommandRetires(s: Server, c: Command)
    requires Retired(s)
    ensures Retired(ApplyCommand(s, c))
  {
  }

  lemma {:induction false} ReplayRetires(s: Server, k: nat)
    requires Retired(s)
    ensures Retired(Replay(s, k)) && (s.role == Follower ==> Replay(s, k).role == Follower)
  {
    if k > 0 { ReplayRetires(s, k - 1); }
  }

  lemma BootRetires(id: NodeId, initial: seq<NodeId>, d: Disk)
    ensures Boot(id, initial, d).role == Follower
  {
    var v := Loaded(id, initial, d);
    ReplayRetires(v, Replayed(v));
    hide Replay;
  }

  lemma BallotRetires(s: Server, step: Step)
    requires Retired(s)
    requires step.Elect? || step.Vote? || step.VoteReplied? || step.Adopt? || step.Transfer? || step.Transferred?
    ensures Retired(Take(s, step)) && Take(s, step).removed == s.removed
  {
    match step
    case Elect =>
    case Vote(_, _, _, _) => hide StartElection, HandleVoteReply;
    case VoteReplied(_) => hide StartElection;
    case Transfer(_, _) => hide HandleVoteReply;
    case _ => hide StartElection, HandleVoteReply;
  }

  lemma StepRetires(s: Server, step: Step)
    requires Retired(s)
    ensures Retired(Take(s, step))
    ensures !step.Apply? && !step.Restart? ==> Take(s, step).removed == s.removed
  {
    match step
    case Append(_) => hide Merge;
    case Replied(_, _, _) => hide CommitScan;
    case Submit(_) =>
    case Count => hide CommitScan;
    case Apply => if CanApply(s) { CommandRetires(s.(lastApplied := s.lastApplied + 1), ApplyNext(s).1.data); }
      hide ApplyCommand;
    case Snap(_) => hide KeepAfter;
    case Install(_, _) => hide KeepAfter;
    case SnapshotDone(_, _) =>
    case Restart(initial) => BootRetires(s.id, initial, s.disk); hide Boot;
    case _ => BallotRetires(s, step); hide Take;
  }

  /** A removed node never leads and never campaigns, whatever it is sent, restarts included. */
  lemma {:induction false} RemovedNeverLeads(states: seq<Server>, steps: seq<Step>, i: nat)
    requires AnyRun(states, steps) && i < |states|
    ensures states[i].removed ==> states[i].role == Follower
    ensures states[i].removed ==> StartElection(states[i]) == states[i]
  {
    H.ElectionIs(states[i]);
    hide Take, Boot, StartElection;
    if i == 0 {
      var id, initial :| states[0] == Boot(id, initial, EMPTY_DISK);
      BootRetires(id, initial, EMPTY_DISK);
    } else {
      RemovedNeverLeads(states, steps, i - 1);
      assert Stepped(states, steps, i - 1);
      StepRetires(states[i - 1], steps[i - 1]);
    }
  }

  // ---------------------------------------------------------------- the last write

  /** A field that each step writes or leaves alone holds what it started with or what was written last. */
  lemma {:induction false} LastWrite<V>(values: seq<V>, writes: seq<Option<V>>, i: nat) returns (j: int)
    requires |values| == |writes| + 1 && i < |values|
    requires forall k :: 0 <= k < |writes| ==>
               values[k + 1] == if writes[k].Some? then writes[k].value else values[k]
    ensures -1 <= j < i && if j == -1 then values[i] == values[0] else writes[j] == Some(values[i])
    ensures forall k :: j < k < i ==> writes[k].None?
  {
    if i == 0 {
      j := -1;
    } else if writes[i - 1].Some? {
      j := i - 1;
    } else {
      j := LastWrite(values, writes, i - 1);
    }
  }

  // ------------------------------------------------------------------ match indices

  /** The match index a step books for p: an acknowledged request, a snapshot call, or the base on taking office. */
  function BookedBy(s: Server, step: Step, p: NodeId): Option<nat> {
    match step
    case Replied(peer, q, r) =>
      if !(peer == p && p in s.peers && r.success && r.term <= s.term) then None
      else if q.entries != [] then Some(q.entries[|q.entries| - 1].index)
      else if q.prev >= s.base then Some(q.prev) else None
    case SnapshotDone(peer, i) => if peer == p then Some(i) else None
    case VoteReplied(r) =>
      if p in s.peers && s.role == Candidate && r.granted && r.term <= s.term && 2 * (s.votes + 1) > |s.peers| + 1
      then Some(s.base) else None
    case _ => None
  }

  /** A restart, the node's own removal and the change that adds or removes p itself forget what was booked. */
  predicate Forgets(s: Server, step: Step, p: NodeId) {
    || step.Restart?
    || (step.Apply? && CanApply(s) && ChangeForgets(s, ApplyNext(s).1.data, p))
  }

  predicate ChangeForgets(s: Server, c: Command, p: NodeId) {
    c.ConfigChange? && if c.node == s.id then !c.isAdd else c.node == p && (c.isAdd ==> p !in s.peers)
  }

  function MatchWrite(s: Server, step: Step, p: NodeId): Option<nat> {
    if Forgets(s, step, p) then Some(0) else BookedBy(s, step, p)
  }

  function Written<V>(w: Option<V>, was: V): V { if w.Some? then w.value else was }

  lemma ChangeMatch(s: Server, c: Command, p: NodeId)
    ensures Get(ApplyCommand(s, c).matchIndex, p) == if ChangeForgets(s, c, p) then 0 else Get(s.matchIndex, p)
  {
    hide Without, Last;
  }

  lemma {:induction false} ReplayMatch(s: Server, k: nat, p: NodeId)
    requires Get(s.matchIndex, p) == 0
    ensures Get(Replay(s, k).matchIndex, p) == 0
  {
    if k > 0 {
      ReplayMatch(s, k - 1, p);
      var s1 := Replay(s, k - 1);
      if k < |s1.log| { ChangeMatch(s1, s1.log[k].data, p); }
      hide ApplyCommand;
    }
  }

  lemma BootMatch(id: NodeId, initial: seq<NodeId>, d: Disk, p: NodeId)
    ensures Get(Boot(id, initial, d).matchIndex, p) == 0
  {
    var v := Loaded(id, initial, d);
    ReplayMatch(v, Replayed(v), p);
    hide Replay;
  }

  lemma CommitMatch(s: Server)
    ensures UpdateCommit(s).matchIndex == s.matchIndex && UpdateCommit(s).nextIndex == s.nextIndex
    ensures UpdateCommit(s).leader == s.leader
    ensures UpdateCommit(s).snap == s.snap && UpdateCommit(s).disk == s.disk
  {
    hide CommitScan;
  }

  lemma BallotMatch(s: Server, step: Step, p: NodeId)
    requires step.Elect? || step.Vote? || step.VoteReplied? || step.Adopt? || step.Transfer? || step.Transferred?
    ensures Get(Take(s, step).matchIndex, p) == Written(MatchWrite(s, step, p), Get(s.matchIndex, p))
  {
    match step
    case Elect => ElectMatch(s, p); hide StartElection;
    case Vote(_, _, _, _) => hide StartElection, HandleVoteReply;
    case VoteReplied(_) => hide StartElection;
    case Transfer(_, t) => ElectMatch(StepUp(s, t), p); hide StartElection, HandleVoteReply;
    case _ => hide StartElection, HandleVoteReply;
  }

  /** Only a node without peers takes office on its own vote, and books nothing. */
  lemma ElectMatch(s: Server, p: NodeId)
    ensures Get(StartElection(s).matchIndex, p) == Get(s.matchIndex, p)
  {
  }

  /** What a step does to the match index of p. */
  lemma MatchMoves(s: Server, step: Step, p: NodeId)
    ensures Get(Take(s, step).matchIndex, p) == Written(MatchWrite(s, step, p), Get(s.matchIndex, p))
  {
    match step
    case Append(_) => hide Merge;
    case Replied(peer, q, r) => ReplyMatch(s, step, p);
    case Submit(_) =>
    case Count => CommitMatch(s); hide UpdateCommit;
    case Apply => if CanApply(s) { ChangeMatch(s.(lastApplied := s.lastApplied + 1), ApplyNext(s).1.data, p); }
      hide ApplyCommand;
    case Snap(_) => hide KeepAfter;
    case Install(_, _) => hide KeepAfter;
    case SnapshotDone(_, _) =>
    case Restart(initial) => BootMatch(s.id, initial, s.disk, p); hide Boot;
    case _ => BallotMatch(s, step, p); hide Take;
  }

  lemma ReplyMatch(s: Server, step: Step, p: NodeId)
    requires step.Replied?
    ensures Get(Take(s, step).matchIndex, p) == Written(MatchWrite(s, step, p), Get(s.matchIndex, p))
  {
    forall s1 ensures UpdateCommit(s1).matchIndex == s1.matchIndex { CommitMatch(s1); }
    hide UpdateCommit;
  }

  /**
   Over every run, what a node believes of a peer is 0 or was booked by a success, a snapshot call or taking
   office, and nothing has written it since.
   */
  lemma MatchIsBooked(states: seq<Server>, steps: seq<Step>, i: nat, p: NodeId) returns (j: int)
    requires AnyRun(states, steps) && i < |states|
    ensures var m := Get(states[i].matchIndex, p);
            m == 0 || (0 <= j < i && BookedBy(states[j], steps[j], p) == Some(m) && !Forgets(states[j], steps[j], p))
    ensures -1 <= j < i && forall k :: j < k < i ==> MatchWrite(states[k], steps[k], p).None?
  {
    var values, writes := Matches(states, p), MatchWrites(states, steps, p);
    hide AnyRun, MatchWrite, BookedBy, Forgets, Matches, MatchWrites;
    MatchesFollow(states, steps, p);
    j := LastWrite(values, writes, i);
    if j >= 0 { WriteIs(states[j], steps[j], p); }
    forall k | j < k < i ensures MatchWrite(states[k], steps[k], p).None? { assert writes[k].None?; }
  }

  ghost function Matches(states: seq<Server>, p: NodeId): (r: seq<nat>)
    ensures |r| == |states| && forall k :: 0 <= k < |r| ==> r[k] == Get(states[k].matchIndex, p)
  {
    seq(|states|, k requires 0 <= k < |states| => Get(states[k].matchIndex, p))
  }

  ghost function MatchWrites(states: seq<Server>, steps: seq<Step>, p: NodeId): (r: seq<Option<nat>>)
    requires |states| == |steps| + 1
    ensures |r| == |steps| && forall k :: 0 <= k < |r| ==> r[k] == MatchWrite(states[k], steps[k], p)
  {
    seq(|steps|, k requires 0 <= k < |steps| => MatchWrite(states[k], steps[k], p))
  }

  lemma MatchesFollow(states: seq<Server>, steps: seq<Step>, p: NodeId)
    requires AnyRun(states, steps)
    ensures var values, writes := Matches(states, p), MatchWrites(states, steps, p);
            && values[0] == 0
            && forall k :: 0 <= k < |writes| ==>
                 values[k + 1] == if writes[k].Some? then writes[k].value else values[k]
  {
    hide Take, Boot, MatchWrite, Get;
    var values, writes := Matches(states, p), MatchWrites(states, steps, p);
    forall k | 0 <= k < |steps| ensures values[k + 1] == Written(writes[k], values[k]) {
      assert Stepped(states, steps, k);
      MatchMoves(states[k], steps[k], p);
    }
    var id, initial :| states[0] == Boot(id, initial, EMPTY_DISK);
    BootMatch(id, initial, EMPTY_DISK, p);
  }

  lemma WriteIs(s: Server, step: Step, p: NodeId)
    ensures MatchWrite(s, step, p) == if Forgets(s, step, p) then Some(0) else BookedBy(s, step, p)
  {
  }

  // ------------------------------------------------------------------- next indices

  /** The next index a step sets for p. */
  function NextWrite(s: Server, step: Step, p: NodeId): Option<nat> {
    match step
    case Replied(peer, q, r) =>
      if r.success then (var b := BookedBy(s, step, p); if b.Some? then Some(b.value + 1) else None)
      else if peer == p && r.term <= s.term && BacksOff(s, p) then Some(Get(s.nextIndex, p) - 1) else None
    case SnapshotDone(peer, i) => if peer == p then Some(i + 1) else None
    case VoteReplied(_) => if BookedBy(s, step, p).Some? then Some(Last(s) + 1) else None
    case Apply =>
      if !Forgets(s, step, p) then None
      else if ApplyNext(s).1.data.isAdd then Some(Last(s) + 1) else Some(0)
    case Restart(initial) =>
      var w := Boot(s.id, initial, s.disk);
      Some(if p in w.peers then Last(w) + 1 else 0)
    case _ => None
  }

  /** A refused request moves the leader one back, but never to its base, nor once a snapshot is due. */
  predicate BacksOff(s: Server, p: NodeId) {
    var next := Get(s.nextIndex, p);
    next > s.base + 1 && (s.snap.Some? ==> s.snap.value.index < next)
  }

  lemma ChangeNext(s: Server, c: Command, p: NodeId)
    ensures Get(ApplyCommand(s, c).nextIndex, p) ==
            if !ChangeForgets(s, c, p) then Get(s.nextIndex, p) else if c.isAdd then Last(s) + 1 else 0
  {
    hide Without, Last;
  }

  /** Replay leaves next indices only of peers. */
  lemma {:induction false} ReplayNext(s: Server, k: nat, p: NodeId)
    requires Get(s.nextIndex, p) > 0 ==> p in s.peers
    ensures Get(Replay(s, k).nextIndex, p) > 0 ==> p in Replay(s, k).peers
  {
    if k > 0 {
      ReplayNext(s, k - 1, p);
      var s1 := Replay(s, k - 1);
      if k < |s1.log| {
        ChangeNext(s1, s1.log[k].data, p);
        ChangePeers(s1, s1.log[k].data, p);
      }
      hide ApplyCommand;
    }
  }

  lemma ChangePeers(s: Server, c: Command, p: NodeId)
    ensures p in s.peers && !ChangeForgets(s, c, p) ==> p in ApplyCommand(s, c).peers
    ensures ChangeForgets(s, c, p) && c.isAdd ==> p in ApplyCommand(s, c).peers
  {
    if c.ConfigChange? { H.WithoutIs(s.peers, c.node); }
    hide Without;
  }

  lemma BootNext(id: NodeId, initial: seq<NodeId>, d: Disk, p: NodeId)
    ensures var w := Boot(id, initial, d);
            Get(w.nextIndex, p) == if p in w.peers then Last(w) + 1 else 0
  {
    var v := Loaded(id, initial, d);
    ReplayNext(v, Replayed(v), p);
    hide Replay;
  }

  lemma BallotNext(s: Server, step: Step, p: NodeId)
    requires step.Elect? || step.Vote? || step.VoteReplied? || step.Adopt? || step.Transfer? || step.Transferred?
    ensures Get(Take(s, step).nextIndex, p) == Written(NextWrite(s, step, p), Get(s.nextIndex, p))
  {
    match step
    case Elect => ElectNext(s, p); hide StartElection;
    case Vote(_, _, _, _) => hide StartElection, HandleVoteReply;
    case VoteReplied(_) => hide StartElection, Last;
    case Transfer(_, t) => ElectNext(StepUp(s, t), p); hide StartElection, HandleVoteReply;
    case _ => hide StartElection, HandleVoteReply;
  }

  lemma ElectNext(s: Server, p: NodeId)
    ensures Get(StartElection(s).nextIndex, p) == Get(s.nextIndex, p)
  {
  }

  lemma ReplyNext(s: Server, step: Step, p: NodeId)
    requires step.Replied?
    ensures Get(Take(s, step).nextIndex, p) == Written(NextWrite(s, step, p), Get(s.nextIndex, p))
  {
    forall s1 ensures UpdateCommit(s1).nextIndex == s1.nextIndex { CommitMatch(s1); }
    hide UpdateCommit;
  }

  /** What a step does to the next index of p. */
  lemma NextMoves(s: Server, step: Step, p: NodeId)
    ensures Get(Take(s, step).nextIndex, p) == Written(NextWrite(s, step, p), Get(s.nextIndex, p))
  {
    match step
    case Append(_) => hide Merge;
    case Replied(_, _, _) => ReplyNext(s, step, p);
    case Submit(_) =>
    case Count => CommitMatch(s); hide UpdateCommit;
    case Apply => ApplyStepNext(s, p);
    case Snap(_) => hide KeepAfter;
    case Install(_, _) => hide KeepAfter;
    case SnapshotDone(_, _) =>
    case Restart(initial) => BootNext(s.id, initial, s.disk, p); hide Boot;
    case _ => BallotNext(s, step, p); hide Take;
  }

  lemma ApplyStepNext(s: Server, p: NodeId)
    ensures Get(Take(s, Apply).nextIndex, p) == Written(NextWrite(s, Apply, p), Get(s.nextIndex, p))
  {
    if CanApply(s) { ChangeNext(s.(lastApplied := s.lastApplied + 1), ApplyNext(s).1.data, p); }
    hide ApplyCommand;
  }

  // -------------------------------------------------------------------- snapshots

  /** The snapshot a step takes or installs. */
  function SnapWrite(s: Server, step: Step): Option<Snapshot> {
    match step
    case Snap(data) =>
      if s.base <= s.lastApplied && s.lastApplied - s.base < |s.log|
      then Some(Snapshot(s.lastApplied, s.log[s.lastApplied - s.base].term, data)) else None
    case Install(t, sn) => if t >= s.term then Some(sn) else None
    case _ => None
  }

  predicate SnapSaved(s: Server) { s.disk.snap == s.snap }

  /** What a step does to the snapshot, in memory and on disk. */
  lemma SnapMoves(s: Server, step: Step)
    requires SnapSaved(s)
    ensures var w, sn := Take(s, step), SnapWrite(s, step);
            SnapSaved(w) && w.snap == if sn.Some? then sn else s.snap
  {
    match step
    case Append(q) => AppendStore(s, q); hide AppendEntries;
    case Submit(_) =>
    case Snap(data) => H.SnapshotCarries(s, data); hide CreateSnapshot;
    case Install(t, sn) => H.InstallCarries(s, t, sn); hide InstallSnapshot;
    case Restart(initial) => BootSnap(s.id, initial, s.disk); hide Boot;
    case Replied(_, _, _) => IndexStep(s, step); hide Take;
    case Count => IndexStep(s, step); hide Take;
    case SnapshotDone(_, _) => IndexStep(s, step); hide Take;
    case Apply => IndexStep(s, step); hide Take;
    case _ => BallotStep(s, step); hide Take;
  }

  lemma BootSnap(id: NodeId, initial: seq<NodeId>, d: Disk)
    ensures Boot(id, initial, d).snap == Boot(id, initial, d).disk.snap == d.snap
  {
    var v := Loaded(id, initial, d);
    ReplayKeepsStore(v, Replayed(v));
    hide Replay;
  }

  lemma {:induction false} RunSnaps(states: seq<Server>, steps: seq<Step>, i: nat)
    requires AnyRun(states, steps) && i < |states|
    ensures SnapSaved(states[i]) && (i == 0 ==> states[i].snap.None?)
  {
    hide Take, Boot;
    if i == 0 {
      var id, initial :| states[0] == Boot(id, initial, EMPTY_DISK);
      BootSnap(id, initial, EMPTY_DISK);
    } else {
      RunSnaps(states, steps, i - 1);
      assert Stepped(states, steps, i - 1);
      SnapMoves(states[i - 1], steps[i - 1]);
    }
  }

  /** Over every run, a node's snapshot is the last one it took or installed, data and all, and so is the saved one. */
  lemma SnapshotIsLast(states: seq<Server>, steps: seq<Step>, i: nat) returns (j: int)
    requires AnyRun(states, steps) && i < |states|
    ensures states[i].disk.snap == states[i].snap && -1 <= j < i
    ensures if j == -1 then states[i].snap.None? else SnapWrite(states[j], steps[j]) == states[i].snap != None
    ensures forall k :: j < k < i ==> SnapWrite(states[k], steps[k]).None?
  {
    var values, writes := Snaps(states), SnapWrites(states, steps);
    RunSnaps(states, steps, i);
    SnapsFollow(states, steps);
    hide AnyRun, SnapWrite, Snaps, SnapWrites;
    j := LastWrite(values, writes, i);
    forall k | j < k < i ensures SnapWrite(states[k], steps[k]).None? { assert writes[k].None?; }
  }

  ghost function Snaps(states: seq<Server>): (r: seq<Option<Snapshot>>)
    ensures |r| == |states| && forall k :: 0 <= k < |r| ==> r[k] == states[k].snap
  {
    seq(|states|, k requires 0 <= k < |states| => states[k].snap)
  }

  ghost function SnapWrites(states: seq<Server>, steps: seq<Step>): (r: seq<Option<Option<Snapshot>>>)
    requires |states| == |steps| + 1
    ensures |r| == |steps|
    ensures forall k :: 0 <= k < |r| ==>
              r[k] == var sn := SnapWrite(states[k], steps[k]); if sn.Some? then Some(sn) else None
  {
    seq(|steps|, k requires 0 <= k < |steps| =>
          var sn := SnapWrite(states[k], steps[k]); if sn.Some? then Some(sn) else None)
  }

  lemma SnapsFollow(states: seq<Server>, steps: seq<Step>)
    requires AnyRun(states, steps)
    ensures var values, writes := Snaps(states), SnapWrites(states, steps);
            && values[0] == None
            && forall k :: 0 <= k < |writes| ==>
                 values[k + 1] == if writes[k].Some? then writes[k].value else values[k]
  {
    hide Take, Boot, SnapWrite;
    var values, writes := Snaps(states), SnapWrites(states, steps);
    RunSnaps(states, steps, 0);
    forall k | 0 <= k < |steps| ensures values[k + 1] == Written(writes[k], values[k]) {
      assert Stepped(states, steps, k);
      RunSnaps(states, steps, k);
      SnapMoves(states[k], steps[k]);
    }
  }

  // -------------------------------------------------------------- the known leader

  /** Whom a step makes the node take for the leader. */
  function LeaderWrite(s: Server, step: Step): Option<NodeId> {
    match step
    case Append(q) => if !H.Stranger(s, q.leader) && q.term >= s.term then Some(q.leader) else None
    case Transferred(x, t) => if t > s.term then Some(x) else None
    case Elect => if !s.removed && s.peers == [] then Some(s.id) else None
    case Transfer(l, t) => if l == s.leader && t >= s.term && !s.removed && s.peers == [] then Some(s.id) else None
    case VoteReplied(r) =>
      if s.role == Candidate && r.granted && r.term <= s.term && 2 * (s.votes + 1) > |s.peers| + 1
      then Some(s.id) else None
    case Apply => if CanApply(s) && RemovesIt(s, ApplyNext(s).1.data) then Some(NOBODY) else None
    case Restart(_) => Some(NOBODY)
    case _ => None
  }

  predicate RemovesIt(s: Server, c: Command) { c.ConfigChange? && c.node == s.id && !c.isAdd }

  lemma ChangeLeader(s: Server, c: Command)
    ensures ApplyCommand(s, c).leader == if RemovesIt(s, c) then NOBODY else s.leader
  {
  }

  lemma {:induction false} ReplayLeader(s: Server, k: nat)
    requires s.leader == NOBODY
    ensures Replay(s, k).leader == NOBODY
  {
    if k > 0 {
      ReplayLeader(s, k - 1);
      var s1 := Replay(s, k - 1);
      if k < |s1.log| { ChangeLeader(s1, s1.log[k].data); }
      hide ApplyCommand;
    }
  }

  lemma BootLeader(id: NodeId, initial: seq<NodeId>, d: Disk)
    ensures Boot(id, initial, d).leader == NOBODY
  {
    var v := Loaded(id, initial, d);
    ReplayLeader(v, Replayed(v));
    hide Replay;
  }

  lemma ReplyLeader(s: Server, step: Step)
    requires step.Replied?
    ensures Take(s, step).leader == s.leader
  {
    forall s1 ensures UpdateCommit(s1).leader == s1.leader { CommitMatch(s1); }
    hide UpdateCommit;
  }

  lemma BallotLeader(s: Server, step: Step)
    requires step.Elect? || step.Vote? || step.VoteReplied? || step.Adopt? || step.Transfer? || step.Transferred?
    ensures Take(s, step).leader == Written(LeaderWrite(s, step), s.leader)
  {
    match step
    case Elect => H.ElectionIs(s); hide StartElection;
    case Vote(_, _, _, _) => hide StartElection, HandleVoteReply;
    case VoteReplied(r) => H.VoteReplyIs(s, r); hide HandleVoteReply;
    case Transfer(l, t) => H.TimeoutNowIs(s, l, t); hide TimeoutNow;
    case _ => hide StartElection, HandleVoteReply;
  }

  lemma LeaderMoves(s: Server, step: Step)
    ensures Take(s, step).leader == Written(LeaderWrite(s, step), s.leader)
  {
    match step
    case Append(q) => H.AppendIff(s, q); hide AppendEntries;
    case Replied(_, _, _) => ReplyLeader(s, step);
    case Submit(_) =>
    case Count => CommitMatch(s); hide UpdateCommit;
    case Apply => if CanApply(s) { ChangeLeader(s.(lastApplied := s.lastApplied + 1), ApplyNext(s).1.data); }
      hide ApplyCommand;
    case Snap(_) => hide KeepAfter;
    case Install(_, _) => hide KeepAfter;
    case SnapshotDone(_, _) =>
    case Restart(initial) => BootLeader(s.id, initial, s.disk); hide Boot;
    case _ => BallotLeader(s, step); hide Take;
  }

  /**
   Over every run, the leader a node knows of is the last one it had reason to: the sender of a request of a current
   term, the node it handed its office to, or itself; none after a restart and after its own removal.
   */
  lemma LeaderIsLast(states: seq<Server>, steps: seq<Step>, i: nat) returns (j: int)
    requires AnyRun(states, steps) && i < |states|
    ensures -1 <= j < i
    ensures if j == -1 then states[i].leader == NOBODY else LeaderWrite(states[j], steps[j]) == Some(states[i].leader)
    ensures forall k :: j < k < i ==> LeaderWrite(states[k], steps[k]).None?
  {
    var values, writes := Leaders(states), LeaderWrites(states, steps);
    hide AnyRun, LeaderWrite, Leaders, LeaderWrites;
    LeadersFollow(states, steps);
    j := LastWrite(values, writes, i);
    forall k | j < k < i ensures LeaderWrite(states[k], steps[k]).None? { assert writes[k].None?; }
  }

  ghost function Leaders(states: seq<Server>): (r: seq<NodeId>)
    ensures |r| == |states| && forall k :: 0 <= k < |r| ==> r[k] == states[k].leader
  {
    seq(|states|, k requires 0 <= k < |states| => states[k].leader)
  }

  ghost function LeaderWrites(states: seq<Server>, steps: seq<Step>): (r: seq<Option<NodeId>>)
    requires |states| == |steps| + 1
    ensures |r| == |steps| && forall k :: 0 <= k < |r| ==> r[k] == LeaderWrite(states[k], steps[k])
  {
    seq(|steps|, k requires 0 <= k < |steps| => LeaderWrite(states[k], steps[k]))
  }

  lemma LeadersFollow(states: seq<Server>, steps: seq<Step>)
    requires AnyRun(states, steps)
    ensures var values, writes := Leaders(states), LeaderWrites(states, steps);
            && values[0] == NOBODY
            && forall k :: 0 <= k < |writes| ==>
                 values[k + 1] == if writes[k].Some? then writes[k].value else values[k]
  {
    hide Take, Boot, LeaderWrite;
    var values, writes := Leaders(states), LeaderWrites(states, steps);
    forall k | 0 <= k < |steps| ensures values[k + 1] == Written(writes[k], values[k]) {
      assert Stepped(states, steps, k);
      LeaderMoves(states[k], steps[k]);
    }
    var id, initial :| states[0] == Boot(id, initial, EMPTY_DISK);
    BootLeader(id, initial, EMPTY_DISK);
  }

  // ------------------------------------------------------------------- after a restart

  /**
   Whatever the log file says, a restarted node stands at its snapshot: that much is committed and applied, the
   boundary entry is the snapshot's, and of the file's entries only an old boundary entry is dropped.
   */
  lemma BootStandsAtSnapshot(id: NodeId, initial: seq<NodeId>, d: Disk)
    requires d.snap.Some?
    ensures var w, sn := Boot(id, initial, d), d.snap.value;
            && w.base == w.commitIndex == w.lastApplied == sn.index
            && H.HoldsTerm(w, sn.index, sn.term) && w.log[0].index == sn.index
            && (d.log != [] ==> w.log[1..] == if d.log[0].index == sn.index then d.log[1..] else d.log)
  {
    var v := Loaded(id, initial, d);
    ReplayKeepsStore(v, Replayed(v));
    hide Replay;
  }
}
