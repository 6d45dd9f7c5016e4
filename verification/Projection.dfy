/** What one node sees of a run of the cluster: a run of its own, in which every step is safe. */
module Projection {
  import opened Types
  import opened Server
  import opened Cluster
  import opened Membership
  import opened Votes
  import opened Compaction
  import opened Logs
  import opened Merging
  import opened Simulation
  import opened Safety
  import opened Theorems
  import D = Delivery
  import N = NodeRuns
  import P = Protocol
  import S = ProtocolSteps

  // ------------------------------------------------------ requests and conflicts

  /** The entries of a request are the leader's, in order and with their own indices. */
  lemma EntriesInPlace(a: P.State, q: AppendRequest)
    requires P.Inv(a) && SliceView(a, q)
    ensures Contiguous(q.entries, q.prev)
  {
    forall k | 0 <= k < |q.entries| ensures q.entries[k].index == q.prev + 1 + k {
      assert P.ReignOk(a.reigns, q.term) && P.Rooted(a.reigns, a.reigns[q.term].log, q.prev + 1 + k);
    }
  }

  /** A committed entry of a node is what the leader's log has there. */
  lemma NoConflictBelow(a: P.State, n: NodeId, v: Server, q: AppendRequest, k: nat)
    requires P.Inv(a) && n in a.nodes && n in a.e.members && a.e.members[n].ballot.term == q.term && SliceView(a, q)
    requires Compacts(v.log, v.base, a.nodes[n].log) && v.commitIndex <= a.nodes[n].commit
    requires k < |q.entries| && Conflicts(v.log, v.base, q.entries[k])
    ensures q.entries[k].index > v.commitIndex
  {
    EntriesInPlace(a, q);
    ProtocolFacts(a, n);
    var i := q.entries[k].index;
    if i <= v.commitIndex { CommittedInLead(a, n, q.term, i); }
    hide P.Inv, P.NodeOk, P.CommitOk, P.ReignsOk;
  }

  /** No request in flight that is not stale contradicts what its receiver knows to be committed. */
  lemma RequestsAreSafe(s: State, a: P.State, n: NodeId, q: AppendRequest)
    requires Refines(s, a) && n in s.servers && AppendReq(n, q) in s.net
    ensures Contiguous(q.entries, q.prev)
    ensures var v := s.servers[n];
            v.lastApplied <= v.commitIndex && (v.term <= q.term ==> D.ConflictsAbove(v, q, v.commitIndex))
  {
    hide LogView, P.Inv, OfficeView, VoteView, Static, Evolves, SliceView, CommitView, HistoryView;
    var v := s.servers[n];
    HandlerFacts(s, a, n);
    NodeFacts(s, a, n);
    MessageFacts(s, a, AppendReq(n, q));
    EntriesInPlace(a, q);
    if v.term <= q.term {
      var a1 := S.Adopt(a, n, q.term, true);
      AdoptEvolves(a, n, q.term, true);
      SliceViewEvolves(a, a1, q);
      hide Compacts;
      forall k | 0 <= k < |q.entries| && Conflicts(v.log, v.base, q.entries[k])
        ensures q.entries[k].index > v.commitIndex {
        NoConflictBelow(a1, n, v, q, k);
      }
    }
  }

  // ---------------------------------------------------------- events as steps

  function Receiver(m: Message): NodeId {
    match m
    case VoteReq(_, to, _, _, _) => to
    case VoteResp(_, cand, _, _) => cand
    case AppendReq(to, _) => to
    case AppendResp(_, q, _) => q.leader
    case SnapReq(_, to, _, _) => to
  }

  /** The node an event happens on. */
  function NodeOf(ev: Event): NodeId {
    if ev.SnapshotCallDone? && ev.m.SnapReq? then ev.m.sender
    else if
      || ev.DeliverVoteReq? || ev.DeliverVoteResp? || ev.DeliverAppend? || ev.DeliverAppendResp?
      || ev.DeliverSnapshot? || ev.SnapshotCallDone?
    then Receiver(ev.m)
    else ev.n
  }

  /** The step an event takes there; sending changes no node. */
  function StepOf(s: State, ev: Event): Option<N.Step>
    requires Enabled(s, ev)
  {
    match ev
    case Timeout(_) => Some(N.Elect)
    case Transfer(_, t) => Some(N.Adopt(t))
    case Transferred(_, x, t) => Some(N.Transferred(x, t))
    case DeliverVoteReq(m) => Some(N.Vote(m.cand, m.term, m.lastIndex, m.lastTerm))
    case DeliverVoteResp(m) => Some(N.VoteReplied(m.vote))
    case Submit(_, cmd) => Some(N.Submit(cmd))
    case DeliverAppend(m) => Some(N.Append(m.q))
    case DeliverAppendResp(m) => Some(N.Replied(m.peer, m.q, m.reply))
    case DeliverSnapshot(m) => Some(N.Install(m.term, m.sn))
    case SnapshotCallDone(m) => Some(N.SnapshotDone(m.to, m.sn.index))
    case CountCommit(_) => Some(N.Count)
    case ApplyOne(_) => Some(N.Apply)
    case Snap(_, data) => Some(N.Snap(data))
    case Crash(n) => Some(N.Restart(s.config[n]))
    case _ => None
  }

  function After(v: Server, step: Option<N.Step>): Server {
    if step.Some? then N.Take(v, step.value) else v
  }

  ghost predicate IsStep(s: State, ev: Event)
    requires Enabled(s, ev)
  {
    && NodeOf(ev) in s.servers
    && Next(s, ev).servers == s.servers[NodeOf(ev) := After(s.servers[NodeOf(ev)], StepOf(s, ev))]
  }

  lemma BallotEventIsStep(s: State, ev: Event)
    requires Enabled(s, ev)
    requires ev.Timeout? || ev.Transfer? || ev.Transferred? || ev.AskVote? || ev.DeliverVoteReq? || ev.DeliverVoteResp?
    ensures IsStep(s, ev)
  {
    hide StartElection, RequestVote, HandleVoteReply, StepUp, TransferReply;
  }

  lemma LogEventIsStep(s: State, ev: Event)
    requires Enabled(s, ev)
    requires ev.Submit? || ev.SendAppend? || ev.DeliverAppend? || ev.DeliverAppendResp? || ev.CountCommit?
             || ev.ApplyOne?
    ensures IsStep(s, ev)
  {
    hide Propose, AppendEntries, HandleAppendReply, UpdateCommit, ApplyNext, Request, CanApply, Batch, Wins, Commits;
    match ev
    case Submit(_, _) =>
    case SendAppend(_, _, _, _, _, _) =>
    case DeliverAppend(_) =>
    case DeliverAppendResp(_) =>
    case CountCommit(_) =>
    case ApplyOne(_) =>
  }

  lemma KnowsItself(s: State, n: NodeId)
    requires Static(s) && n in s.servers
    ensures s.servers[n].id == n
  {
    assert ServerStatic(s.config, n, s.servers[n]);
  }

  lemma CrashIsStep(s: State, n: NodeId)
    requires Static(s) && Enabled(s, Crash(n))
    ensures IsStep(s, Crash(n))
  {
    hide Static, Boot, Wins, Commits;
    KnowsItself(s, n);
  }

  lemma SnapshotEventIsStep(s: State, ev: Event)
    requires Enabled(s, ev) && (ev.SendSnapshot? || ev.DeliverSnapshot? || ev.SnapshotCallDone? || ev.Snap?)
    ensures IsStep(s, ev)
  {
    hide InstallSnapshot, SnapshotSent, CreateSnapshot, Wins, Commits;
    match ev
    case SendSnapshot(_, _, _) =>
    case DeliverSnapshot(_) =>
    case SnapshotCallDone(_) =>
    case Snap(_, _) =>
  }

  /** An event changes its node by its step, and no other node. */
  lemma EventIsStep(s: State, ev: Event)
    requires Static(s) && Enabled(s, ev)
    ensures IsStep(s, ev)
  {
    hide *;
    match ev
    case Timeout(_) => BallotEventIsStep(s, ev);
    case Transfer(_, _) => BallotEventIsStep(s, ev);
    case Transferred(_, _, _) => BallotEventIsStep(s, ev);
    case AskVote(_, _, _) => BallotEventIsStep(s, ev);
    case DeliverVoteReq(_) => BallotEventIsStep(s, ev);
    case DeliverVoteResp(_) => BallotEventIsStep(s, ev);
    case SendSnapshot(_, _, _) => SnapshotEventIsStep(s, ev);
    case DeliverSnapshot(_) => SnapshotEventIsStep(s, ev);
    case SnapshotCallDone(_) => SnapshotEventIsStep(s, ev);
    case Snap(_, _) => SnapshotEventIsStep(s, ev);
    case Crash(n) => CrashIsStep(s, n);
    case _ => LogEventIsStep(s, ev);
  }

  /** The step of an assumed event is safe for its node. */
  ghost predicate IsSafe(s: State, ev: Event)
    requires Enabled(s, ev)
  {
    StepOf(s, ev).Some? ==> NodeOf(ev) in s.servers && D.Safe(s.servers[NodeOf(ev)], StepOf(s, ev).value)
  }

  lemma EventIsSafe(s: State, ev: Event, a: P.State)
    requires Enabled(s, ev) && Assumed(s, ev) && Refines(s, a)
    ensures IsSafe(s, ev)
  {
    hide Refines, AppendEntries, TightClamp, FreshVote, FreshAck, Request, Batch, CanApply;
    if ev.DeliverAppend? {
      RequestsAreSafe(s, a, ev.m.to, ev.m.q);
      AcceptedIsCurrent(s.servers[ev.m.to], ev.m.q);
    }
  }

  lemma AcceptedIsCurrent(v: Server, q: AppendRequest)
    ensures AppendEntries(v, q).1.success ==> v.term <= q.term
  {
    hide Merge;
  }

  /** Every event of an assumed run is one safe step of one node, or only sends. */
  lemma EventsAreSafeSteps(states: seq<State>, events: seq<Event>, i: nat)
    requires AssumedRun(states, events) && i < |events|
    ensures Follows(states, events, i) && IsStep(states[i], events[i]) && IsSafe(states[i], events[i])
  {
    var a := AssumedRunRefines(states, events, i);
    assert Follows(states, events, i);
    hide LogView, P.Inv, VoteView, OfficeView, Static, Next, Enabled, Assumed, IsStep, IsSafe, Run;
    EventIsStep(states[i], events[i]);
    EventIsSafe(states[i], events[i], a);
  }
}
