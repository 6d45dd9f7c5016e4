/** Every assumed event of the cluster is simulated by the protocol: the step of the refinement. */
module Safety {
  import opened Types
  import opened Server
  import opened Cluster
  import opened Membership
  import opened Votes
  import opened Offices
  import opened Logs
  import opened Simulation
  import opened Advances
  import E = Election
  import P = Protocol
  import S = ProtocolSteps

  // ------------------------------------------------------ every event refines

  /** What the refinement says of the server a handler runs on. */
  lemma HandlerFacts(s: State, a: P.State, n: NodeId)
    requires Refines(s, a) && n in s.servers
    ensures NOBODY !in s.config
    ensures ServerStatic(s.config, n, s.servers[n]) && n != NOBODY
            && s.servers.Keys == a.e.members.Keys == a.nodes.Keys == s.config.Keys
    ensures Mirrors(s.servers[n], a.e.members[n]) && a.e.members[n].role == s.servers[n].role
    ensures s.servers[n].disk.term <= s.servers[n].term
    ensures s.servers[n].role == Leader ==> s.servers[n].term in a.e.wins && a.e.wins[s.servers[n].term].leader == n
  {
    assert ServerStatic(s.config, n, s.servers[n]) && Mirrors(s.servers[n], a.e.members[n]) && Office(s, a.e, n)
           && E.RoleOk(a.e, n);
  }

  lemma MessageFacts(s: State, a: P.State, m: Message)
    requires Refines(s, a) && m in s.net
    ensures MessageStatic(s.config.Keys, m) && MessageView(s.hist, a, m) && Backed(a.e, m)
  {
    assert MessageStatic(s.config.Keys, m) && MessageView(s.hist, a, m) && Backed(a.e, m);
  }

  lemma TimeoutRefines(s: State, a: P.State, n: NodeId) returns (a': P.State)
    requires Refines(s, a) && n in s.servers
    ensures a'.e == Campaigned(a.e, n, StartElection(s.servers[n])) && LogView(TimeoutNext(s, n), a') && P.Inv(a')
            && Evolves(a, a')
  {
    hide LogView, P.Inv, OfficeView, VoteView, Static, StartElection;
    HandlerFacts(s, a, n);
    var v := s.servers[n];
    StartElectionFacts(v);
    QuorumIsMajority(s, n);
    a' := SimCampaign(s, a, n, v, StartElection(v));
  }

  lemma VoteReqRefines(s: State, a: P.State, m: Message) returns (a': P.State)
    requires Refines(s, a) && m in s.net && m.VoteReq? && m.to in s.servers
    ensures a'.e == VoteReqStep(a.e, s.servers[m.to], m) && LogView(VoteReqNext(s, m), a') && P.Inv(a')
            && Evolves(a, a')
  {
    hide LogView, P.Inv, OfficeView, VoteView, Static, RequestVote;
    var n := m.to;
    var v := s.servers[n];
    HandlerFacts(s, a, n);
    MessageFacts(s, a, m);
    RequestVoteFacts(v, m.cand, m.term, m.lastIndex, m.lastTerm);
    var (w, r) := RequestVote(v, m.cand, m.term, m.lastIndex, m.lastTerm);
    var fx := SILENT.(sent := {VoteResp(n, m.cand, m.term, r)},
                      grants := if r.granted then {E.Vote(n, m.term, m.cand)} else {});
    if r.granted {
      a' := SimGrant(s, a, m, n, v, w, fx);
    } else {
      var t := if Known(v, m.cand) then m.term else 0;
      a' := S.Adopt(a, n, t, true);
      SimAdopt(s, a, n, v, w, fx, t, true);
    }
  }

  lemma VoteRespRefines(s: State, a: P.State, m: Message) returns (a': P.State)
    requires Refines(s, a) && m in s.net && m.VoteResp? && m.cand in s.servers
             && E.Vote(m.voter, m.term, m.cand) !in s.returned
    requires FreshVote(s.servers[m.cand], m)
    ensures a'.e == VoteRespStep(a.e, s.servers[m.cand], m) && LogView(VoteRespNext(s, m), a') && P.Inv(a')
            && Evolves(a, a')
  {
    hide LogView, P.Inv, OfficeView, VoteView, Static, HandleVoteReply;
    var n := m.cand;
    var v := s.servers[n];
    HandlerFacts(s, a, n);
    MessageFacts(s, a, m);
    HandleVoteReplyFacts(v, m.vote);
    var w := HandleVoteReply(v, m.vote);
    var fx := SILENT.(returned := {E.Vote(m.voter, m.term, n)});
    if m.vote.term > v.term {
      a' := S.Adopt(a, n, m.vote.term, false);
      SimAdopt(s, a, n, v, w, fx, m.vote.term, false);
    } else if v.role != Candidate || !m.vote.granted {
      a' := S.Adopt(a, n, 0, false);
      SimAdopt(s, a, n, v, w, fx, 0, false);
    } else {
      CountedOnce(s, a, m);
      QuorumIsMajority(s, n);
      a' := SimCount(s, a, m, v, w);
    }
  }

  lemma CountedOnce(s: State, a: P.State, m: Message)
    requires Refines(s, a) && Counts(s, m)
    ensures m.cand in a.e.members && |a.e.members[m.cand].granted + {m.voter}| == s.servers[m.cand].votes + 1
    ensures E.Vote(m.voter, m.term, m.cand) in a.e.votes
  {
    hide LogView;
    OneMoreVote(s, a.e, m);
  }

  /** The node after adopting the term of a request, and the protocol after the same. */
  lemma Adopting(s: State, a: P.State, n: NodeId, t: nat)
    requires Refines(s, a) && n in s.servers
    ensures var v1, a1 := StepUp(s.servers[n], t), S.Adopt(a, n, t, true);
            && LogView(Post(s, n, v1, SILENT), a1) && P.Inv(a1) && Evolves(a, a1) && n in a1.e.members
            && Mirrors(v1, a1.e.members[n])
  {
    hide LogView, P.Inv, OfficeView, VoteView, Static, Evolves;
    HandlerFacts(s, a, n);
    var v := s.servers[n];
    StepUpFacts(v, t);
    SimAdopt(s, a, n, v, StepUp(v, t), SILENT, t, true);
    AdoptEvolves(a, n, t, true);
  }

  /** No leader receives a request of its own term. */
  lemma NotOwnLeader(s: State, a: P.State, n: NodeId, leader: NodeId, t: nat)
    requires Refines(s, a) && n in s.servers && t in a.e.wins && a.e.wins[t].leader == leader != n
             && s.servers[n].term <= t
    ensures StepUp(s.servers[n], t).role != Leader
  {
    hide LogView, P.Inv;
    HandlerFacts(s, a, n);
  }

  lemma AppendRefines(s: State, a: P.State, m: Message) returns (a': P.State)
    requires Refines(s, a) && m in s.net && m.AppendReq? && m.to in s.servers
    requires AppendEntries(s.servers[m.to], m.q).1.success ==> TightClamp(s.servers[m.to], m.q)
    ensures a'.e == (if Known(s.servers[m.to], m.q.leader) then E.Adopt(a.e, m.to, m.q.term, true) else a.e)
    ensures LogView(AppendNext(s, m), a') && P.Inv(a') && Evolves(a, a')
  {
    hide LogView, P.Inv, OfficeView, VoteView, Static, AppendEntries, Evolves, SliceView, CommitView;
    var n, q := m.to, m.q;
    var v := s.servers[n];
    HandlerFacts(s, a, n);
    MessageFacts(s, a, m);
    KnowsPeer(s, n, q.leader);
    AppendFacts(v, q);
    var (w, r) := AppendEntries(v, q);
    var fx := SILENT.(sent := {AppendResp(n, q, r)},
                      accepts := if r.success then {Accept(n, q.term, q.prev + |q.entries|)} else {});
    if r.success {
      a' := AcceptRefines(s, a, n, q, w, fx);
    } else {
      a' := S.Adopt(a, n, q.term, true);
      SimAdopt(s, a, n, v, w, fx, q.term, true);
    }
  }

  lemma KnowsPeer(s: State, n: NodeId, p: NodeId)
    requires Static(s) && n in s.servers && p in s.config && p != n
    ensures Known(s.servers[n], p)
  {
    assert ServerStatic(s.config, n, s.servers[n]) && ListsOthers(s.config, n);
    assert p in Elems(s.config[n]);
  }

  lemma SenderLeads(a: P.State, q: AppendRequest)
    requires SliceView(a, q)
    ensures q.term in a.e.wins && a.e.wins[q.term].leader == q.leader
  {
  }

  lemma AcceptRefines(s: State, a: P.State, n: NodeId, q: AppendRequest, w: Server, fx: Effect) returns (a': P.State)
    requires Refines(s, a) && n in s.servers && q.leader != n && SliceView(a, q)
             && CommitView(s.hist, a, q.term, q.commit)
    requires var v := s.servers[n];
             v.term <= q.term && Appended(StepUp(v, q.term), w, q) && PrevOk(v, q.prev, q.prevTerm) && TightClamp(v, q)
    requires fx.accepts == {Accept(n, q.term, q.prev + |q.entries|)} && fx.applied == {}
    requires forall m :: m in fx.sent ==> m.AppendResp? && m.q == q && m.peer == n
    ensures a'.e == E.Adopt(a.e, n, q.term, true) && LogView(Post(s, n, w, fx), a') && P.Inv(a') && Evolves(a, a')
  {
    hide LogView, P.Inv, OfficeView, VoteView, Static, Evolves, SliceView, CommitView;
    HandlerFacts(s, a, n);
    Adopting(s, a, n, q.term);
    SenderLeads(a, q);
    NotOwnLeader(s, a, n, q.leader, q.term);
    var v1, a1 := StepUp(s.servers[n], q.term), S.Adopt(a, n, q.term, true);
    var s1 := Post(s, n, v1, SILENT);
    SliceViewEvolves(a, a1, q);
    CommitViewEvolves(s.hist, s1.hist, a, a1, q.term, q.commit);
    a' := SimAppend(s1, a1, n, v1, w, q, fx);
    EvolvesTwice(a, a1, a');
    PostTwice(s, n, v1, w, fx);
  }

  lemma InstallRefines(s: State, a: P.State, m: Message) returns (a': P.State)
    requires Refines(s, a) && m in s.net && m.SnapReq? && m.to in s.servers
    requires m.term < s.servers[m.to].term || SaneSnapshot(s.servers[m.to], m.sn)
    ensures a'.e == E.Adopt(a.e, m.to, m.term, true) && LogView(InstallNext(s, m), a') && P.Inv(a') && Evolves(a, a')
  {
    hide LogView, P.Inv, OfficeView, VoteView, Static, Evolves, CommitView, InstallSnapshot;
    var n := m.to;
    var v := s.servers[n];
    HandlerFacts(s, a, n);
    MessageFacts(s, a, m);
    if m.term < v.term {
      a' := S.Adopt(a, n, m.term, true);
      StaleInstall(v, m.term, m.sn);
      SimAdopt(s, a, n, v, v, SILENT, m.term, true);
    } else {
      InstallFacts(v, m.term, m.sn);
      a' := InstallAccepts(s, a, m, n, InstallSnapshot(v, m.term, m.sn));
    }
  }

  lemma StaleInstall(v: Server, t: nat, sn: Snapshot)
    requires t < v.term
    ensures InstallSnapshot(v, t, sn) == v
  {
  }

  lemma InstallAccepts(s: State, a: P.State, m: Message, n: NodeId, w: Server) returns (a': P.State)
    requires Refines(s, a) && m.SnapReq? && MessageView(s.hist, a, m) && n in s.servers && n == m.to != m.sender
    requires var v := s.servers[n];
             v.term <= m.term && SaneSnapshot(v, m.sn) && InstalledAt(StepUp(v, m.term), w, m.term, m.sn)
    ensures a'.e == E.Adopt(a.e, n, m.term, true)
    ensures LogView(Post(s, n, w, SILENT.(accepts := {Accept(n, m.term, m.sn.index)})), a') && P.Inv(a')
            && Evolves(a, a')
  {
    hide LogView, P.Inv, OfficeView, VoteView, Static, Evolves, CommitView;
    HandlerFacts(s, a, n);
    Adopting(s, a, n, m.term);
    NotOwnLeader(s, a, n, m.sender, m.term);
    var v1, a1 := StepUp(s.servers[n], m.term), S.Adopt(a, n, m.term, true);
    var s1, fx := Post(s, n, v1, SILENT), SILENT.(accepts := {Accept(n, m.term, m.sn.index)});
    CommitViewEvolves(s.hist, s1.hist, a, a1, m.term, m.sn.index);
    a' := SimInstall(s1, a1, n, v1, w, m.sn, fx);
    EvolvesTwice(a, a1, a');
    PostTwice(s, n, v1, w, fx);
  }

  lemma AdoptRefines(s: State, a: P.State, n: NodeId, w: Server, t: nat) returns (a': P.State)
    requires Refines(s, a) && n in s.servers && Untouched(s.servers[n], w, t)
    ensures a'.e == E.Adopt(a.e, n, t, true) && LogView(Post(s, n, w, SILENT), a') && P.Inv(a') && Evolves(a, a')
  {
    hide LogView, P.Inv, OfficeView, VoteView, Static;
    HandlerFacts(s, a, n);
    a' := S.Adopt(a, n, t, true);
    SimAdopt(s, a, n, s.servers[n], w, SILENT, t, true);
  }

  lemma TermFacts(v: Server, x: NodeId, t: nat)
    requires v.disk.term <= v.term
    ensures Untouched(v, StepUp(v, t), t) && Untouched(v, TransferReply(v, x, t), t)
  {
  }

  lemma ReplyTermFacts(v: Server, peer: NodeId, q: AppendRequest, r: AppendReply)
    requires v.disk.term <= v.term < r.term
    ensures Untouched(v, HandleAppendReply(v, peer, q, r), r.term)
  {
  }

  lemma ReplyRefines(s: State, a: P.State, m: Message) returns (a': P.State)
    requires Refines(s, a) && m in s.net && m.AppendResp? && m.q.leader in s.servers
             && FreshAck(s.servers[m.q.leader], m)
    ensures a'.e == E.Adopt(a.e, m.q.leader, m.reply.term, true)
    ensures LogView(Post(s, m.q.leader, HandleAppendReply(s.servers[m.q.leader], m.peer, m.q, m.reply), SILENT), a')
            && P.Inv(a') && Evolves(a, a')
  {
    hide LogView, P.Inv, OfficeView, VoteView, Static, HandleAppendReply;
    var n := m.q.leader;
    var v := s.servers[n];
    HandlerFacts(s, a, n);
    MessageFacts(s, a, m);
    if m.reply.term > v.term {
      ReplyTermFacts(v, m.peer, m.q, m.reply);
      a' := AdoptRefines(s, a, n, HandleAppendReply(v, m.peer, m.q, m.reply), m.reply.term);
    } else {
      a' := SimReply(s, a, m, n, v);
    }
  }

  lemma SubmitRefines(s: State, a: P.State, n: NodeId, cmd: Command) returns (a': P.State)
    requires Refines(s, a) && n in s.servers
    ensures a'.e == a.e && LogView(Post(s, n, Propose(s.servers[n], cmd).0, SILENT), a') && P.Inv(a') && Evolves(a, a')
  {
    hide LogView, P.Inv, OfficeView, VoteView, Static;
    HandlerFacts(s, a, n);
    var v := s.servers[n];
    if v.role == Leader {
      a' := SimPropose(s, a, n, v, cmd);
    } else {
      a' := S.Adopt(a, n, 0, true);
      SimAdopt(s, a, n, v, v, SILENT, 0, true);
    }
  }

  lemma AskRefines(s: State, a: P.State, n: NodeId, p: NodeId, t: nat)
    requires Refines(s, a) && n in s.servers && Lead(n, t) in s.campaigns
    ensures LogView(SendNext(s, n, VoteReq(n, p, t, Last(s.servers[n]), LastTerm(s.servers[n].log))), a)
  {
    hide LogView, P.Inv;
    AskIsSound(s, a, n, p, t);
    SimSend(s, a, n, VoteReq(n, p, t, Last(s.servers[n]), LastTerm(s.servers[n].log)));
  }

  lemma SendRefines(s: State, a: P.State, n: NodeId, p: NodeId, t: nat, lo: nat, hi: nat)
    requires Refines(s, a) && n in s.servers && p in s.servers[n].peers && BuiltByLeader(s.servers[n], t)
    ensures Batch(s.servers[n], p, lo, hi) ==>
              LogView(SendNext(s, n, AppendReq(p, Request(s.servers[n], t, lo, lo, hi))), a)
    ensures s.servers[n].snap.Some? ==> LogView(SendNext(s, n, SnapReq(n, p, t, s.servers[n].snap.value)), a)
  {
    hide LogView, P.Inv, OfficeView, VoteView, Static, MessageView;
    HandlerFacts(s, a, n);
    if Batch(s.servers[n], p, lo, hi) {
      RequestIsSound(s, a, n, p, lo, hi);
      SimSend(s, a, n, AppendReq(p, Request(s.servers[n], t, lo, lo, hi)));
    }
    if s.servers[n].snap.Some? {
      SnapshotIsSound(s, a, n, p);
      SimSend(s, a, n, SnapReq(n, p, t, s.servers[n].snap.value));
    }
  }

  lemma CountRefines(s: State, a: P.State, n: NodeId) returns (a': P.State)
    requires Refines(s, a) && n in s.servers
    ensures a'.e == a.e && LogView(Post(s, n, UpdateCommit(s.servers[n]), SILENT), a') && P.Inv(a') && Evolves(a, a')
  {
    hide LogView, P.Inv, OfficeView, VoteView, Static;
    HandlerFacts(s, a, n);
    NodeFacts(s, a, n);
    a' := SimUpdateCommit(s, a, n, s.servers[n], s.servers[n]);
  }

  lemma CrashRefines(s: State, a: P.State, n: NodeId) returns (a': P.State)
    requires Refines(s, a) && n in s.servers && n in s.config && DurableAcks(s, n)
    ensures a'.e == E.Restart(a.e, n) && LogView(Post(s, n, Boot(n, s.config[n], s.servers[n].disk), SILENT), a')
            && P.Inv(a') && Evolves(a, a')
  {
    hide LogView, P.Inv, OfficeView, VoteView, Static, Boot;
    HandlerFacts(s, a, n);
    NodeFacts(s, a, n);
    RebootFacts(s.config, n, s.servers[n], a.nodes[n].log);
    a' := S.Restart(a, n);
    SimCrash(s, a, n, s.servers[n], Boot(n, s.config[n], s.servers[n].disk));
  }

  // ---------------------------------------------------------------- all events

  ghost predicate Simulates(s: State, ev: Event, a: P.State, a': P.State)
    requires Enabled(s, ev) && s.servers.Keys == a.e.members.Keys
  {
    a'.e == VoteStep(s, ev, a.e) && LogView(Next(s, ev), a') && P.Inv(a') && Evolves(a, a')
  }

  lemma BallotEvent(s: State, ev: Event, a: P.State) returns (a': P.State)
    requires Enabled(s, ev) && Assumed(s, ev) && Refines(s, a)
    requires ev.Timeout? || ev.Transfer? || ev.Transferred? || ev.AskVote? || ev.DeliverVoteReq? || ev.DeliverVoteResp?
    ensures Simulates(s, ev, a, a')
  {
    hide LogView, P.Inv, OfficeView, VoteView, Static, Evolves;
    hide StartElection, RequestVote, HandleVoteReply, StepUp, TransferReply;
    match ev
    case Timeout(n) => a' := TimeoutRefines(s, a, n);
    case Transfer(n, t) =>
      HandlerFacts(s, a, n);
      TermFacts(s.servers[n], NOBODY, t);
      a' := AdoptRefines(s, a, n, StepUp(s.servers[n], t), t);
    case Transferred(n, x, t) =>
      HandlerFacts(s, a, n);
      TermFacts(s.servers[n], x, t);
      a' := AdoptRefines(s, a, n, TransferReply(s.servers[n], x, t), t);
    case AskVote(n, p, t) =>
      a' := a;
      SameEvolves(a);
      AskRefines(s, a, n, p, t);
    case DeliverVoteReq(m) => a' := VoteReqRefines(s, a, m);
    case DeliverVoteResp(m) => a' := VoteRespRefines(s, a, m);
  }

  lemma LogEvent(s: State, ev: Event, a: P.State) returns (a': P.State)
    requires Enabled(s, ev) && Assumed(s, ev) && Refines(s, a)
    requires ev.Submit? || ev.SendAppend? || ev.DeliverAppend? || ev.DeliverAppendResp? || ev.CountCommit?
             || ev.ApplyOne?
    ensures Simulates(s, ev, a, a')
  {
    hide LogView, P.Inv, OfficeView, VoteView, Static, Evolves, AppendEntries, HandleAppendReply, UpdateCommit, Request;
    match ev
    case Submit(n, c) => a' := SubmitRefines(s, a, n, c);
    case SendAppend(n, p, t, prev, lo, hi) =>
      a' := a;
      SameEvolves(a);
      SendRefines(s, a, n, p, t, lo, hi);
    case DeliverAppend(m) => a' := AppendRefines(s, a, m);
    case DeliverAppendResp(m) => a' := ReplyRefines(s, a, m);
    case CountCommit(n) => a' := CountRefines(s, a, n);
    case ApplyOne(n) => a' := SimApply(s, a, n, s.servers[n]);
  }

  lemma SnapshotEvent(s: State, ev: Event, a: P.State) returns (a': P.State)
    requires Enabled(s, ev) && Assumed(s, ev) && Refines(s, a)
    requires ev.SendSnapshot? || ev.DeliverSnapshot? || ev.SnapshotCallDone? || ev.Snap? || ev.Crash?
    ensures Simulates(s, ev, a, a')
  {
    hide LogView, P.Inv, OfficeView, VoteView, Static, Evolves, InstallSnapshot, CreateSnapshot, SnapshotSent, Boot;
    match ev
    case SendSnapshot(n, p, t) =>
      a' := a;
      SameEvolves(a);
      SendRefines(s, a, n, p, t, 0, 0);
    case DeliverSnapshot(m) => a' := InstallRefines(s, a, m);
    case SnapshotCallDone(m) =>
      a' := a;
      SameEvolves(a);
      MessageFacts(s, a, m);
      SimSnapshotSent(s, a, m, m.sender, s.servers[m.sender]);
    case Snap(n, data) =>
      a' := a;
      SameEvolves(a);
      SimSnap(s, a, n, s.servers[n], data);
    case Crash(n) => a' := CrashRefines(s, a, n);
  }

  /** Every assumed event of a sound cluster leads to a sound cluster. */
  lemma NextRefines(s: State, ev: Event, a: P.State) returns (a': P.State)
    requires Enabled(s, ev) && Assumed(s, ev) && Refines(s, a)
    ensures Refines(Next(s, ev), a') && Evolves(a, a')
  {
    hide *;
    if ev.Timeout? || ev.Transfer? || ev.Transferred? || ev.AskVote? || ev.DeliverVoteReq? || ev.DeliverVoteResp? {
      a' := BallotEvent(s, ev, a);
    } else if ev.Submit? || ev.SendAppend? || ev.DeliverAppend? || ev.DeliverAppendResp? || ev.CountCommit?
      || ev.ApplyOne? {
      a' := LogEvent(s, ev, a);
    } else {
      a' := SnapshotEvent(s, ev, a);
    }
    SimulationRefines(s, ev, a, a');
  }

  lemma SimulationRefines(s: State, ev: Event, a: P.State, a': P.State)
    requires Enabled(s, ev) && Assumed(s, ev) && Refines(s, a) && Simulates(s, ev, a, a')
    ensures Refines(Next(s, ev), a') && Evolves(a, a')
  {
    hide LogView, P.Inv, OfficeView, VoteView, Static, Next, VoteStep, Evolves;
    VotesRefine(s, ev, a);
  }

  lemma VotesRefine(s: State, ev: Event, a: P.State)
    requires Enabled(s, ev) && FreshElections(s, ev) && Refines(s, a)
    ensures s.servers.Keys == a.e.members.Keys
    ensures Static(Next(s, ev)) && VoteView(Next(s, ev), VoteStep(s, ev, a.e))
            && OfficeView(Next(s, ev), VoteStep(s, ev, a.e))
  {
    hide LogView, OfficeView, Static, Next, VoteStep;
    NextStatic(s, ev);
    NextVotes(s, ev, a.e);
    NextOffices(s, ev, a.e);
  }
}
