/** The log's shape over every run of one node, restarts included. */
module NodeRuns {
  import opened Types
  import opened Server
  import opened Merging
  import opened Compaction

  datatype Step =
    | Elect
    | Vote(cand: NodeId, t: nat, lastIndex: nat, lastTerm: nat)
    | VoteReplied(vote: VoteReply)
    | Adopt(t: nat)
    | Transfer(leader: NodeId, t: nat)
    | Transferred(target: NodeId, t: nat)
    | Append(q: AppendRequest)
    | Replied(peer: NodeId, q: AppendRequest, reply: AppendReply)
    | Submit(cmd: Command)
    | Count
    | Apply
    | Snap(data: Store)
    | Install(t: nat, sn: Snapshot)
    | SnapshotDone(peer: NodeId, i: nat)
    | Restart(initial: seq<NodeId>)

  function Take(s: Server, step: Step): Server {
    match step
    case Elect => StartElection(s)
    case Vote(c, t, li, lt) => RequestVote(s, c, t, li, lt).0
    case VoteReplied(r) => HandleVoteReply(s, r)
    case Adopt(t) => StepUp(s, t)
    case Transfer(l, t) => TimeoutNow(s, l, t)
    case Transferred(x, t) => TransferReply(s, x, t)
    case Append(q) => AppendEntries(s, q).0
    case Replied(p, q, r) => HandleAppendReply(s, p, q, r)
    case Submit(cmd) => Propose(s, cmd).0
    case Count => UpdateCommit(s)
    case Apply => if CanApply(s) then ApplyNext(s).0 else s
    case Snap(data) => CreateSnapshot(s, data)
    case Install(t, sn) => InstallSnapshot(s, t, sn)
    case SnapshotDone(p, i) => SnapshotSent(s, p, i)
    case Restart(initial) => Boot(s.id, initial, s.disk)
  }

  /** A request that is accepted is contiguous, and a snapshot that is installed is not below the base. */
  ghost predicate Orderly(s: Server, step: Step) {
    && (step.Append? && AppendEntries(s, step.q).1.success ==> Contiguous(step.q.entries, step.q.prev))
    && (step.Install? && step.t >= s.term ==> s.base <= step.sn.index)
  }

  /** The log has its shape, in memory and on disk. */
  ghost predicate Tidy(s: Server) {
    && Shape(s.log, s.base)
    && (Shape(s.disk.log, s.base) || (s.disk.log == [] && s.base == 0 && s.snap.None?))
    && s.disk.snap == s.snap
    && (match s.snap case None => s.base == 0 case Some(sn) => sn.index == s.base)
  }

  /** Everything a step can change without touching the log or its files. */
  ghost predicate SameStore(s: Server, w: Server) {
    w.log == s.log && w.base == s.base && w.snap == s.snap && w.disk.log == s.disk.log && w.disk.snap == s.disk.snap
  }

  lemma ConfigKeepsStore(s: Server, c: Command)
    ensures SameStore(s, ApplyCommand(s, c))
  {
  }

  lemma {:induction false} ReplayKeepsStore(s: Server, k: nat)
    ensures SameStore(s, Replay(s, k))
  {
    if k > 0 {
      ReplayKeepsStore(s, k - 1);
      var s1 := Replay(s, k - 1);
      if k < |s1.log| { ConfigKeepsStore(s1, s1.log[k].data); }
      hide ApplyCommand;
    }
  }

  lemma CompactIsTidy(s: Server, sn: Snapshot)
    requires Shape(s.log, s.base) && s.base <= sn.index
    ensures Tidy(Compact(s, sn))
  {
    KeepAfterIsSuffix(s.log, s.base, sn.index);
    hide KeepAfter;
  }

  /** A refused request leaves the log alone, an accepted one is merged into it. */
  lemma AppendStore(s: Server, q: AppendRequest)
    ensures var (w, r) := AppendEntries(s, q);
            && w.base == s.base && w.snap == s.snap && w.disk.snap == s.disk.snap && w.lastApplied == s.lastApplied
            && if r.success then
                 PrevOk(s, q.prev, q.prevTerm) && w.log == Merge(s.log, s.base, q.entries) && w.disk.log == w.log
               else w.log == s.log && w.disk.log == s.disk.log
  {
    hide Merge;
  }

  lemma AppendIsTidy(s: Server, q: AppendRequest)
    requires Tidy(s) && (AppendEntries(s, q).1.success ==> Contiguous(q.entries, q.prev))
    ensures Tidy(AppendEntries(s, q).0)
  {
    hide AppendEntries, Merge;
    AppendStore(s, q);
    if AppendEntries(s, q).1.success { MergeHolds(s.log, s.base, q.prev, q.entries); }
  }

  lemma RestartIsTidy(s: Server, initial: seq<NodeId>)
    requires Tidy(s)
    ensures Tidy(Boot(s.id, initial, s.disk)) && Boot(s.id, initial, s.disk).base == s.base
  {
    var v := Loaded(s.id, initial, s.disk);
    ReplayKeepsStore(v, Replayed(v));
    hide Replay;
  }

  lemma BallotStep(s: Server, step: Step)
    requires step.Elect? || step.Vote? || step.VoteReplied? || step.Adopt? || step.Transfer? || step.Transferred?
    ensures SameStore(s, Take(s, step)) && Take(s, step).lastApplied == s.lastApplied
  {
    hide StartElection, RequestVote, HandleVoteReply;
    match step
    case Elect => ElectionStore(s);
    case Vote(c, t, li, lt) => VoteStore(s, c, t, li, lt);
    case VoteReplied(r) => VoteReplyStore(s, r);
    case Transfer(l, t) => ElectionStore(StepUp(s, t));
    case _ =>
  }

  lemma VoteReplyStore(s: Server, r: VoteReply)
    ensures SameStore(s, HandleVoteReply(s, r)) && HandleVoteReply(s, r).lastApplied == s.lastApplied
  {
  }

  lemma ElectionStore(s: Server)
    ensures SameStore(s, StartElection(s)) && StartElection(s).lastApplied == s.lastApplied
  {
  }

  lemma VoteStore(s: Server, c: NodeId, t: nat, li: nat, lt: nat)
    ensures var w := RequestVote(s, c, t, li, lt).0; SameStore(s, w) && w.lastApplied == s.lastApplied
  {
  }

  lemma IndexStep(s: Server, step: Step)
    requires step.Replied? || step.Count? || step.SnapshotDone? || step.Apply?
    ensures SameStore(s, Take(s, step)) && (!step.Apply? ==> Take(s, step).lastApplied == s.lastApplied)
  {
    if step.Apply? && CanApply(s) {
      ConfigKeepsStore(s.(lastApplied := s.lastApplied + 1), ApplyNext(s).1.data);
    }
    hide ApplyCommand, CommitScan;
  }

  lemma LogStep(s: Server, step: Step)
    requires Tidy(s) && Orderly(s, step)
             && (step.Append? || step.Submit? || step.Snap? || step.Install? || step.Restart?)
    ensures Tidy(Take(s, step))
  {
    match step
    case Append(q) => AppendIsTidy(s, q);
    case Submit(_) =>
    case Snap(data) =>
      var e := EntryAt(s.log, s.base, s.lastApplied);
      if e.Some? { CompactIsTidy(s, Snapshot(s.lastApplied, e.value.term, data)); }
    case Install(t, sn) => if t >= s.term { CompactIsTidy(StepUp(s, t), sn); }
    case Restart(initial) => RestartIsTidy(s, initial);
  }

  lemma StepIsTidy(s: Server, step: Step)
    requires Tidy(s) && Orderly(s, step)
    ensures Tidy(Take(s, step))
  {
    hide Take;
    if step.Append? || step.Submit? || step.Snap? || step.Install? || step.Restart? {
      LogStep(s, step);
    } else if step.Replied? || step.Count? || step.SnapshotDone? || step.Apply? {
      IndexStep(s, step);
    } else {
      BallotStep(s, step);
    }
  }

  /** Only applying, a restart and an install that is not stale move the applied index. */
  lemma AppliedMoves(s: Server, step: Step)
    ensures !step.Apply? && !step.Restart? && !(step.Install? && step.t >= s.term) ==>
              Take(s, step).lastApplied == s.lastApplied
    ensures step.Install? && step.t >= s.term ==> Take(s, step).lastApplied == step.sn.index
    ensures step.Apply? && CanApply(s) ==> Take(s, step).lastApplied == s.lastApplied + 1
  {
    match step
    case Append(q) =>
      AppendStore(s, q);
      hide AppendEntries;
    case Submit(_) =>
    case Snap(_) => hide KeepAfter;
    case Install(_, _) => hide Compact;
    case Restart(_) => hide Boot;
    case Apply => hide ApplyConfig;
      if CanApply(s) { ConfigKeepsApplied(s.(lastApplied := s.lastApplied + 1), ApplyNext(s).1.data); }
    case Replied(_, _, _) => IndexStep(s, step);
    case Count => IndexStep(s, step);
    case SnapshotDone(_, _) => IndexStep(s, step);
    case _ => BallotStep(s, step);
  }

  lemma ConfigKeepsApplied(s: Server, c: Command)
    ensures ApplyCommand(s, c).lastApplied == s.lastApplied
  {
  }

  /** A node from first boot on. */
  ghost predicate NodeRun(states: seq<Server>, steps: seq<Step>) {
    && |states| == |steps| + 1
    && (exists id, initial :: states[0] == Boot(id, initial, EMPTY_DISK))
    && forall i :: 0 <= i < |steps| ==> Orderly(states[i], steps[i]) && states[i + 1] == Take(states[i], steps[i])
  }

  lemma FirstBootIsTidy(id: NodeId, initial: seq<NodeId>)
    ensures Tidy(Boot(id, initial, EMPTY_DISK))
  {
    var v := Loaded(id, initial, EMPTY_DISK);
    ReplayKeepsStore(v, Replayed(v));
    hide Replay;
  }

  lemma {:induction false} RunIsTidy(states: seq<Server>, steps: seq<Step>, i: nat)
    requires NodeRun(states, steps) && i < |states|
    ensures Tidy(states[i])
  {
    hide Take, Tidy, Orderly, Boot;
    if i == 0 {
      var id, initial :| states[0] == Boot(id, initial, EMPTY_DISK);
      FirstBootIsTidy(id, initial);
    } else {
      RunIsTidy(states, steps, i - 1);
      StepIsTidy(states[i - 1], steps[i - 1]);
    }
  }

  /** Lookup by absolute index is exact in every state a node can reach. */
  lemma EntryAtIsExact(states: seq<Server>, steps: seq<Step>, i: nat, idx: nat)
    requires NodeRun(states, steps) && i < |states|
    ensures var s := states[i];
            var e := EntryAt(s.log, s.base, idx);
            (e.Some? <==> s.base <= idx <= Last(s)) && (e.Some? ==> e.value.index == idx)
  {
    RunIsTidy(states, steps, i);
    hide NodeRun;
  }

  // --------------------------------------------------- where the shape is lost

  /** A snapshot far below the base breaks the shape, and no other does. */
  lemma InstallShapeIff(s: Server, sn: Snapshot)
    requires Shape(s.log, s.base)
    ensures Shape(Compact(s, sn).log, Compact(s, sn).base) <==> s.base <= sn.index + 1
  {
    if s.base <= sn.index {
      CompactIsTidy(s, sn);
    } else {
      KeepsAll(s.log, s.base, sn.index);
      assert Compact(s, sn).log[1] == s.log[0];
    }
  }

  lemma {:induction false} KeepsAll(log: seq<Entry>, base: nat, i: nat)
    requires (forall k :: 0 <= k < |log| ==> log[k].index == base + k) && i < base
    ensures KeepAfter(log, i) == log
  {
    if log != [] { KeepsAll(log[..|log| - 1], base, i); }
  }

  /** A crash between saving a snapshot and saving the log: the restart breaks the shape unless the two still meet. */
  lemma TornRestartIff(d: Disk, base: nat)
    requires Shape(d.log, base) && d.snap.Some?
    ensures Shape(LoadedLog(d), LoadedBase(d)) <==> base == d.snap.value.index || base == d.snap.value.index + 1
  {
    if base != d.snap.value.index { assert LoadedLog(d)[1] == d.log[0]; }
  }
}
