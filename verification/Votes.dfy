/** The cluster's elections refine the vote protocol: one vote per term, one leader per term. */
module Votes {
  import opened Types
  import opened Server
  import opened Cluster
  import opened Membership
  import E = Election
  import P = Protocol

  // ------------------------------------------------------------ the refinement

  ghost predicate Mirrors(v: Server, m: E.Member) {
    m.ballot == E.Ballot(v.term, v.votedFor) && m.disk == E.Ballot(v.disk.term, v.disk.votedFor)
  }

  ghost predicate Backed(e: E.State, m: Message) {
    match m
    case VoteReq(c, _, t, _, _) => c in e.members && 0 < t <= e.members[c].disk.term
    case VoteResp(p, c, t, r) => r.granted ==> E.Vote(p, t, c) in e.votes
    case _ => true
  }

  /** Ballots in memory and on disk, votes granted and vote messages, all as the vote protocol has them. */
  ghost predicate VoteView(s: State, e: E.State) {
    && s.servers.Keys == e.members.Keys
    && (forall n {:trigger Mirrors(s.servers[n], e.members[n])} :: n in s.servers ==>
        Mirrors(s.servers[n], e.members[n]))
    && s.hist.grants == e.votes
    && (forall m {:trigger Backed(e, m)} :: m in s.net ==> Backed(e, m))
    && (forall l :: l in s.campaigns ==> l.node in e.members && 0 < l.term <= e.members[l.node].disk.term)
  }

  ghost predicate Office(s: State, e: E.State, n: NodeId) {
    && n in s.servers
    && n in e.members
    && var v, m := s.servers[n], e.members[n];
    && m.role == v.role
    && (v.role == Candidate ==>
          && v.votes == |m.granted|
          && m.granted <= s.servers.Keys
          && n in m.granted
          && forall p :: p in m.granted && p != n ==> E.Vote(p, v.term, n) in s.returned)
  }

  /** Roles, counted votes and elections won, as the vote protocol has them. */
  ghost predicate OfficeView(s: State, e: E.State) {
    && (forall n {:trigger Office(s, e, n)} :: n in s.servers ==> Office(s, e, n))
    && (forall l :: l in s.hist.leads ==> l.term in e.wins && e.wins[l.term].leader == l.node)
  }

  // ------------------------------------------------- each event, in vote steps

  function Campaigned(e: E.State, n: NodeId, w: Server): E.State
    requires n in e.members
  {
    var e1 := E.Campaign(e, n);
    if w.role == Leader then E.TakeOffice(e1, n) else e1
  }

  function VoteReqStep(e: E.State, v: Server, m: Message): E.State
    requires m.VoteReq? && m.to in e.members
  {
    if !Known(v, m.cand) then e
    else
      var e1 := E.Adopt(e, m.to, m.term, true);
      if RequestVote(v, m.cand, m.term, m.lastIndex, m.lastTerm).1.granted then E.Grant(e1, m.to, m.cand) else e1
  }

  function VoteRespStep(e: E.State, v: Server, m: Message): E.State
    requires m.VoteResp? && m.cand in e.members
  {
    if m.vote.term > v.term then E.Adopt(e, m.cand, m.vote.term, false)
    else if v.role != Candidate || !m.vote.granted then e
    else
      var e1 := E.Count(e, m.cand, m.voter);
      if v.votes + 1 >= Quorum(v) then E.TakeOffice(e1, m.cand) else e1
  }

  function VoteStep(s: State, ev: Event, e: E.State): E.State
    requires Enabled(s, ev) && s.servers.Keys == e.members.Keys
  {
    match ev
    case Timeout(n) => Campaigned(e, n, StartElection(s.servers[n]))
    case Transfer(n, t) => E.Adopt(e, n, t, true)
    case Transferred(n, _, t) => E.Adopt(e, n, t, true)
    case DeliverVoteReq(m) => VoteReqStep(e, s.servers[m.to], m)
    case DeliverVoteResp(m) => VoteRespStep(e, s.servers[m.cand], m)
    case DeliverAppend(m) => if Known(s.servers[m.to], m.q.leader) then E.Adopt(e, m.to, m.q.term, true) else e
    case DeliverAppendResp(m) => E.Adopt(e, m.q.leader, m.reply.term, true)
    case DeliverSnapshot(m) => E.Adopt(e, m.to, m.term, true)
    case Crash(n) => E.Restart(e, n)
    case _ => e
  }

  lemma KeysAgree(s: State, e: E.State)
    requires VoteView(s, e)
    ensures s.servers.Keys == e.members.Keys
  {
  }

  // ------------------------------------------------------------ votes granted

  /** One server changes; its disk term does not go back and no vote is forgotten. */
  lemma PostVotes(s: State, e: E.State, n: NodeId, w: Server, fx: Effect, e': E.State)
    requires VoteView(s, e) && n in s.servers && n in e'.members
    requires e'.members == e.members[n := e'.members[n]]
    requires Mirrors(w, e'.members[n]) && e.members[n].disk.term <= e'.members[n].disk.term
    requires e'.votes == e.votes + fx.grants
    requires forall m :: m in fx.sent ==> Backed(e', m)
    requires forall l :: l in fx.campaigns ==> l.node == n && 0 < l.term <= e'.members[n].disk.term
    ensures VoteView(Post(s, n, w, fx), e')
  {
    var s' := Post(s, n, w, fx);
    forall k | k in s'.servers ensures Mirrors(s'.servers[k], e'.members[k]) {
      if k != n { assert Mirrors(s.servers[k], e.members[k]); }
    }
    forall x | x in s'.net ensures Backed(e', x) {
      if x in s.net { assert Backed(e, x); }
    }
  }

  /** What starting an election does to the ballot. */
  ghost predicate Campaigns(v: Server, w: Server) {
    && w.term == v.term + 1 == w.disk.term
    && w.votedFor == v.id == w.disk.votedFor
    && w.role != Follower
  }

  lemma CampaignedKeeps(e: E.State, n: NodeId, w: Server)
    requires n in e.members && n != NOBODY && E.VoteInv(e)
    ensures var e' := Campaigned(e, n, w);
            && E.VoteInv(e')
            && n in e'.members && e'.members == e.members[n := e'.members[n]]
            && e'.members[n].ballot == e'.members[n].disk == E.Ballot(e.members[n].ballot.term + 1, n)
            && e'.votes == e.votes + {E.Vote(n, e.members[n].ballot.term + 1, n)}
  {
    E.CampaignKeeps(e, n);
    E.TakeOfficeKeeps(E.Campaign(e, n), n);
  }

  lemma CampaignPost(s: State, e: E.State, n: NodeId, v: Server, w: Server)
    requires VoteView(s, e) && E.VoteInv(e) && n in s.servers && n != NOBODY && v.id == n
    requires Mirrors(v, e.members[n]) && Campaigns(v, w)
    requires s.servers[n].term <= v.term
    ensures VoteView(Post(s, n, w, Campaigning(n, v.term + 1)), Campaigned(e, n, w)) && E.VoteInv(Campaigned(e, n, w))
  {
    CampaignedKeeps(e, n, w);
    PostVotes(s, e, n, w, Campaigning(n, v.term + 1), Campaigned(e, n, w));
  }

  lemma TimeoutVotes(s: State, e: E.State, n: NodeId)
    requires Static(s) && VoteView(s, e) && E.VoteInv(e) && n in s.servers
    ensures VoteView(TimeoutNext(s, n), Campaigned(e, n, StartElection(s.servers[n])))
    ensures E.VoteInv(Campaigned(e, n, StartElection(s.servers[n])))
  {
    var v := s.servers[n];
    assert ServerStatic(s.config, n, v) && Mirrors(v, e.members[n]);
    CampaignPost(s, e, n, v, StartElection(v));
  }

  lemma VoteReqVotes(s: State, e: E.State, m: Message)
    requires Static(s) && VoteView(s, e) && E.VoteInv(e) && m in s.net && m.VoteReq? && m.to in s.servers
    ensures VoteView(VoteReqNext(s, m), VoteReqStep(e, s.servers[m.to], m))
    ensures E.VoteInv(VoteReqStep(e, s.servers[m.to], m))
  {
    var n := m.to;
    var v := s.servers[n];
    assert ServerStatic(s.config, n, v) && Mirrors(v, e.members[n]) && MessageStatic(s.config.Keys, m) && Backed(e, m);
    hide VoteView, Static, E.VoteInv, ServerStatic;
    E.AdoptKeeps(e, n, m.term, true);
    var (w, r) := RequestVote(v, m.cand, m.term, m.lastIndex, m.lastTerm);
    if r.granted {
      E.GrantKeeps(E.Adopt(e, n, m.term, true), n, m.cand);
    }
    PostVotes(s, e, n, w, SILENT.(sent := {VoteResp(n, m.cand, m.term, r)},
                                  grants := if r.granted then {E.Vote(n, m.term, m.cand)} else {}),
              VoteReqStep(e, v, m));
  }

  lemma VoteRespVotes(s: State, e: E.State, m: Message)
    requires Static(s) && VoteView(s, e) && E.VoteInv(e) && m.VoteResp? && m.cand in s.servers
    ensures VoteView(VoteRespNext(s, m), VoteRespStep(e, s.servers[m.cand], m))
    ensures E.VoteInv(VoteRespStep(e, s.servers[m.cand], m))
  {
    var n := m.cand;
    var v := s.servers[n];
    assert Mirrors(v, e.members[n]);
    E.AdoptKeeps(e, n, m.vote.term, false);
    E.CountKeeps(e, n, m.voter);
    E.TakeOfficeKeeps(E.Count(e, n, m.voter), n);
    PostVotes(s, e, n, HandleVoteReply(v, m.vote), SILENT.(returned := {E.Vote(m.voter, m.term, n)}),
              VoteRespStep(e, v, m));
  }

  /** The ballot after adopting term t and saving it. */
  ghost predicate Adopted(v: Server, w: Server, t: nat) {
    && w.term == Max(v.term, t)
    && w.votedFor == (if t > v.term then NOBODY else v.votedFor)
    && w.disk.term == (if t > v.term then t else v.disk.term)
    && w.disk.votedFor == (if t > v.term then NOBODY else v.disk.votedFor)
  }

  lemma AdoptVotes(s: State, e: E.State, n: NodeId, w: Server, fx: Effect, t: nat)
    requires VoteView(s, e) && E.VoteInv(e) && n in s.servers && Adopted(s.servers[n], w, t)
    requires fx.grants == {} && fx.campaigns == {} && forall m :: m in fx.sent ==> m.AppendResp? || Backed(e, m)
    ensures VoteView(Post(s, n, w, fx), E.Adopt(e, n, t, true))
    ensures E.VoteInv(E.Adopt(e, n, t, true))
  {
    assert Mirrors(s.servers[n], e.members[n]);
    E.AdoptKeeps(e, n, t, true);
    PostVotes(s, e, n, w, fx, E.Adopt(e, n, t, true));
  }

  lemma AppendVotes(s: State, e: E.State, m: Message)
    requires VoteView(s, e) && E.VoteInv(e) && m.AppendReq? && m.to in s.servers
    ensures var e' := if Known(s.servers[m.to], m.q.leader) then E.Adopt(e, m.to, m.q.term, true) else e;
            VoteView(AppendNext(s, m), e') && E.VoteInv(e')
  {
    var v := s.servers[m.to];
    var (w, r) := AppendEntries(v, m.q);
    var fx := SILENT.(sent := {AppendResp(m.to, m.q, r)},
                      accepts := if r.success then {Accept(m.to, m.q.term, m.q.prev + |m.q.entries|)} else {});
    var t := if Known(v, m.q.leader) then m.q.term else 0;
    assert Adopted(v, w, t);
    AdoptVotes(s, e, m.to, w, fx, t);
  }

  lemma AppendReplyVotes(s: State, e: E.State, m: Message)
    requires VoteView(s, e) && E.VoteInv(e) && m.AppendResp? && m.q.leader in s.servers
    ensures VoteView(Post(s, m.q.leader, HandleAppendReply(s.servers[m.q.leader], m.peer, m.q, m.reply), SILENT),
                     E.Adopt(e, m.q.leader, m.reply.term, true))
    ensures E.VoteInv(E.Adopt(e, m.q.leader, m.reply.term, true))
  {
    AdoptVotes(s, e, m.q.leader, HandleAppendReply(s.servers[m.q.leader], m.peer, m.q, m.reply), SILENT, m.reply.term);
  }

  lemma InstallVotes(s: State, e: E.State, m: Message)
    requires VoteView(s, e) && E.VoteInv(e) && m.SnapReq? && m.to in s.servers
    ensures VoteView(InstallNext(s, m), E.Adopt(e, m.to, m.term, true)) && E.VoteInv(E.Adopt(e, m.to, m.term, true))
  {
    var v := s.servers[m.to];
    var w := InstallSnapshot(v, m.term, m.sn);
    assert Adopted(v, w, m.term);
    AdoptVotes(s, e, m.to, w,
               if m.term < v.term then SILENT else SILENT.(accepts := {Accept(m.to, m.term, m.sn.index)}), m.term);
  }

  lemma CrashVotes(s: State, e: E.State, n: NodeId)
    requires Static(s) && VoteView(s, e) && E.VoteInv(e) && n in s.servers && n in s.config
    ensures VoteView(Post(s, n, Boot(n, s.config[n], s.servers[n].disk), SILENT), E.Restart(e, n))
            && E.VoteInv(E.Restart(e, n))
  {
    assert ServerStatic(s.config, n, s.servers[n]) && Mirrors(s.servers[n], e.members[n]);
    BootLoads(n, s.config[n], s.servers[n].disk);
    E.RestartKeeps(e, n);
    PostVotes(s, e, n, Boot(n, s.config[n], s.servers[n].disk), SILENT, E.Restart(e, n));
  }

  /** The remaining handlers leave the ballot alone. */
  lemma QuietVotes(s: State, e: E.State, n: NodeId, w: Server, fx: Effect)
    requires VoteView(s, e) && n in s.servers && Adopted(s.servers[n], w, 0)
    requires fx.grants == {} && fx.campaigns == {} && forall m :: m in fx.sent ==> Backed(e, m)
    ensures VoteView(Post(s, n, w, fx), e)
  {
    assert Mirrors(s.servers[n], e.members[n]);
    PostVotes(s, e, n, w, fx, e);
  }

  lemma ApplyVotes(s: State, e: E.State, n: NodeId)
    requires Static(s) && VoteView(s, e) && n in s.servers && CanApply(s.servers[n])
    ensures VoteView(ApplyOneNext(s, n), e)
  {
    var v := s.servers[n];
    assert ServerStatic(s.config, n, v);
    var (w, x) := ApplyNext(v);
    QuietVotes(s, e, n, w, SILENT.(applied := {P.Applied(n, v.lastApplied + 1, x)}));
  }

  lemma AskBacked(s: State, e: E.State, m: Message)
    requires VoteView(s, e) && m.VoteReq? && Lead(m.cand, m.term) in s.campaigns
    ensures Backed(e, m)
  {
  }

  lemma SameBallot(v: Server)
    ensures Adopted(v, v, 0)
  {
  }

  lemma QuietHandlers(v: Server, c: Command, p: NodeId, i: nat, data: Store)
    ensures Adopted(v, Propose(v, c).0, 0) && Adopted(v, SnapshotSent(v, p, i), 0)
    ensures Adopted(v, UpdateCommit(v), 0) && Adopted(v, CreateSnapshot(v, data), 0)
  {
    hide CommitScan, KeepAfter;
  }

  lemma QuietEventVotes(s: State, ev: Event, e: E.State)
    requires Static(s) && Enabled(s, ev) && FixedMembership(ev) && VoteView(s, e)
    requires ev.Submit? || ev.SnapshotCallDone? || ev.CountCommit? || ev.Snap? || ev.AskVote? || ev.SendAppend?
             || ev.SendSnapshot?
    ensures VoteView(Next(s, ev), e)
  {
    hide VoteView, Static, Adopted, Propose, SnapshotSent, UpdateCommit, CreateSnapshot, Request;
    match ev
    case AskVote(n, p, t) =>
      SameBallot(s.servers[n]);
      AskBacked(s, e, VoteReq(n, p, t, Last(s.servers[n]), LastTerm(s.servers[n].log)));
      QuietVotes(s, e, n, s.servers[n],
                 SILENT.(sent := {VoteReq(n, p, t, Last(s.servers[n]), LastTerm(s.servers[n].log))}));
    case Submit(n, c) =>
      QuietHandlers(s.servers[n], c, NOBODY, 0, map[]);
      QuietVotes(s, e, n, Propose(s.servers[n], c).0, SILENT);
    case SendAppend(n, p, t, prev, lo, hi) =>
      SameBallot(s.servers[n]);
      QuietVotes(s, e, n, s.servers[n], SILENT.(sent := {AppendReq(p, Request(s.servers[n], t, prev, lo, hi))}));
    case SendSnapshot(n, p, t) =>
      SameBallot(s.servers[n]);
      QuietVotes(s, e, n, s.servers[n], SILENT.(sent := {SnapReq(n, p, t, s.servers[n].snap.value)}));
    case SnapshotCallDone(m) =>
      QuietHandlers(s.servers[m.sender], UnknownOp, m.to, m.sn.index, map[]);
      QuietVotes(s, e, m.sender, SnapshotSent(s.servers[m.sender], m.to, m.sn.index), SILENT);
    case CountCommit(n) =>
      QuietHandlers(s.servers[n], UnknownOp, NOBODY, 0, map[]);
      QuietVotes(s, e, n, UpdateCommit(s.servers[n]), SILENT);
    case Snap(n, data) =>
      QuietHandlers(s.servers[n], UnknownOp, NOBODY, 0, data);
      QuietVotes(s, e, n, CreateSnapshot(s.servers[n], data), SILENT);
  }

  lemma TransferredVotes(s: State, e: E.State, n: NodeId, x: NodeId, t: nat)
    requires VoteView(s, e) && E.VoteInv(e) && n in s.servers
    ensures VoteView(Post(s, n, TransferReply(s.servers[n], x, t), SILENT), E.Adopt(e, n, t, true))
    ensures VoteView(Post(s, n, StepUp(s.servers[n], t), SILENT), E.Adopt(e, n, t, true))
    ensures E.VoteInv(E.Adopt(e, n, t, true))
  {
    AdoptVotes(s, e, n, StepUp(s.servers[n], t), SILENT, t);
    AdoptVotes(s, e, n, TransferReply(s.servers[n], x, t), SILENT, t);
  }

  lemma BallotEventVotes(s: State, ev: Event, e: E.State)
    requires Static(s) && Enabled(s, ev) && VoteView(s, e) && E.VoteInv(e)
    requires ev.Timeout? || ev.Transfer? || ev.Transferred? || ev.DeliverVoteReq? || ev.DeliverVoteResp?
    ensures VoteView(Next(s, ev), VoteStep(s, ev, e)) && E.VoteInv(VoteStep(s, ev, e))
  {
    KeysAgree(s, e);
    hide VoteView, Static, E.VoteInv, E.Adopt, RequestVote, HandleVoteReply, StartElection, StepUp, TransferReply;
    match ev
    case Timeout(n) => TimeoutVotes(s, e, n);
    case Transfer(n, t) => TransferredVotes(s, e, n, NOBODY, t);
    case Transferred(n, x, t) => TransferredVotes(s, e, n, x, t);
    case DeliverVoteReq(m) => VoteReqVotes(s, e, m);
    case DeliverVoteResp(m) => VoteRespVotes(s, e, m);
  }

  lemma LogEventVotes(s: State, ev: Event, e: E.State)
    requires Static(s) && Enabled(s, ev) && VoteView(s, e) && E.VoteInv(e)
    requires ev.DeliverAppend? || ev.DeliverAppendResp? || ev.DeliverSnapshot? || ev.ApplyOne? || ev.Crash?
    ensures VoteView(Next(s, ev), VoteStep(s, ev, e)) && E.VoteInv(VoteStep(s, ev, e))
  {
    KeysAgree(s, e);
    hide VoteView, Static, E.VoteInv, E.Adopt, AppendEntries, HandleAppendReply, InstallSnapshot, ApplyNext, Boot;
    match ev
    case DeliverAppend(m) => AppendVotes(s, e, m);
    case DeliverAppendResp(m) => AppendReplyVotes(s, e, m);
    case DeliverSnapshot(m) => InstallVotes(s, e, m);
    case ApplyOne(n) => ApplyVotes(s, e, n);
    case Crash(n) => CrashVotes(s, e, n);
  }

  /** Every event of the cluster is a step of the vote protocol. */
  lemma NextVotes(s: State, ev: Event, e: E.State)
    requires Static(s) && Enabled(s, ev) && FixedMembership(ev) && VoteView(s, e) && E.VoteInv(e)
    ensures VoteView(Next(s, ev), VoteStep(s, ev, e)) && E.VoteInv(VoteStep(s, ev, e))
  {
    KeysAgree(s, e);
    hide VoteView, Static, E.VoteInv, Next;
    if ev.Timeout? || ev.Transfer? || ev.Transferred? || ev.DeliverVoteReq? || ev.DeliverVoteResp? {
      BallotEventVotes(s, ev, e);
    } else if ev.DeliverAppend? || ev.DeliverAppendResp? || ev.DeliverSnapshot? || ev.ApplyOne? || ev.Crash? {
      LogEventVotes(s, ev, e);
    } else {
      QuietEventVotes(s, ev, e);
    }
  }
}
