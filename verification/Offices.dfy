/** With votes counted only in the term they were asked for, at most one node ever leads a term. */
module Offices {
  import opened Types
  import opened Server
  import opened Cluster
  import opened Membership
  import opened Votes
  import E = Election
  import P = Protocol

  // --------------------------------------------------------------- quorum sizes

  lemma ElemsSize(xs: seq<NodeId>)
    requires NoRepeats(xs)
    ensures |Elems(xs)| == |xs|
  {
    if xs != [] {
      var front, x := xs[..|xs| - 1], xs[|xs| - 1];
      ElemsSize(front);
      assert Elems(xs) == Elems(front) + {x};
    }
  }

  /** A node's quorum is a majority of the whole cluster. */
  lemma QuorumIsMajority(s: State, n: NodeId)
    requires Static(s) && n in s.servers
    ensures Quorum(s.servers[n]) == |s.servers.Keys| / 2 + 1
  {
    assert ServerStatic(s.config, n, s.servers[n]);
    assert ListsOthers(s.config, n);
    ElemsSize(s.config[n]);
    assert s.config.Keys == Elems(s.config[n]) + {n};
  }

  // ------------------------------------------------------------- one node changes

  /** What the changed node's office must be for the view to carry over. */
  ghost predicate Installed(s: State, n: NodeId, w: Server, fx: Effect, m: E.Member) {
    && m.role == w.role
    && (w.role == Candidate ==>
          && w.votes == |m.granted|
          && m.granted <= s.servers.Keys
          && n in m.granted
          && forall p :: p in m.granted && p != n ==> E.Vote(p, w.term, n) in s.returned + fx.returned)
  }

  lemma PostOffice(s: State, e: E.State, n: NodeId, w: Server, fx: Effect, e': E.State)
    requires OfficeView(s, e) && n in s.servers && s.servers.Keys == e.members.Keys && n in e'.members
    requires e'.members == e.members[n := e'.members[n]] && Installed(s, n, w, fx, e'.members[n])
    requires forall t :: t in e.wins ==> t in e'.wins && e'.wins[t] == e.wins[t]
    requires w.role == Leader ==> w.term in e'.wins && e'.wins[w.term].leader == n
    ensures OfficeView(Post(s, n, w, fx), e')
  {
    var s' := Post(s, n, w, fx);
    forall k | k in s'.servers ensures Office(s', e', k) {
      if k != n { assert Office(s, e, k); }
    }
  }

  /** The node steps down, or keeps its role, term and votes. */
  ghost predicate SameOffice(v: Server, w: Server, t: nat) {
    if t > v.term then w.role == Follower else w.role == v.role && w.term == v.term && w.votes == v.votes
  }

  /** The vote protocol's member did the same. */
  ghost predicate SameMember(m: E.Member, m': E.Member, t: nat) {
    if t > m.ballot.term then m'.role == Follower else m'.role == m.role && m'.granted == m.granted
  }

  lemma KeepOffice(s: State, e: E.State, n: NodeId, w: Server, fx: Effect, t: nat, e': E.State)
    requires VoteView(s, e) && OfficeView(s, e) && E.WinInv(e) && n in s.servers && n in e'.members
    requires SameOffice(s.servers[n], w, t) && SameMember(e.members[n], e'.members[n], t)
    requires e'.members == e.members[n := e'.members[n]] && e'.wins == e.wins
    ensures OfficeView(Post(s, n, w, fx), e')
  {
    assert Office(s, e, n) && Mirrors(s.servers[n], e.members[n]) && E.RoleOk(e, n);
    PostOffice(s, e, n, w, fx, e');
  }

  lemma AdoptOffice(s: State, e: E.State, n: NodeId, w: Server, fx: Effect, t: nat, saved: bool)
    requires VoteView(s, e) && OfficeView(s, e) && E.VoteInv(e) && E.WinInv(e) && n in s.servers
    requires SameOffice(s.servers[n], w, t)
    ensures OfficeView(Post(s, n, w, fx), E.Adopt(e, n, t, saved)) && E.WinInv(E.Adopt(e, n, t, saved))
  {
    E.AdoptKeeps(e, n, t, saved);
    KeepOffice(s, e, n, w, fx, t, E.Adopt(e, n, t, saved));
  }

  lemma QuietOffice(s: State, e: E.State, n: NodeId, w: Server, fx: Effect)
    requires VoteView(s, e) && OfficeView(s, e) && E.WinInv(e) && n in s.servers && SameOffice(s.servers[n], w, 0)
    ensures OfficeView(Post(s, n, w, fx), e)
  {
    KeepOffice(s, e, n, w, fx, 0, e);
  }

  // ------------------------------------------------------------------ elections

  /** Counting one more vote than the candidate has, or taking office when that makes a majority. */
  lemma ElectionSettles(s: State, e: E.State, n: NodeId, w: Server, fx: Effect, e1: E.State)
    requires OfficeView(s, e) && n in s.servers && s.servers.Keys == e.members.Keys && n in e1.members
    requires E.VoteInv(e1) && E.WinInv(e1) && e1.wins == e.wins && e1.members == e.members[n := e1.members[n]]
    requires var m := e1.members[n];
             && m.role == Candidate && m.ballot.term == w.term > 0
             && Installed(s, n, w.(role := Candidate, votes := |m.granted|), fx, m)
             && (w.role == Candidate ==> w.votes == |m.granted|)
             && (w.role == Leader ==> |m.granted| >= |s.servers.Keys| / 2 + 1)
             && w.role != Follower
    ensures var e' := if w.role == Leader then E.TakeOffice(e1, n) else e1;
            OfficeView(Post(s, n, w, fx), e') && E.WinInv(e')
  {
    if w.role == Leader {
      assert e1.members.Keys == s.servers.Keys;
      E.MajorityIsFirst(e1, n);
      E.TakeOfficeKeeps(e1, n);
      PostOffice(s, e, n, w, fx, E.TakeOffice(e1, n));
    } else {
      PostOffice(s, e, n, w, fx, e1);
    }
  }

  lemma TimeoutOffice(s: State, e: E.State, n: NodeId)
    requires Static(s) && VoteView(s, e) && OfficeView(s, e) && E.VoteInv(e) && E.WinInv(e) && n in s.servers
    ensures OfficeView(TimeoutNext(s, n), Campaigned(e, n, StartElection(s.servers[n])))
    ensures E.WinInv(Campaigned(e, n, StartElection(s.servers[n])))
  {
    var v := s.servers[n];
    assert ServerStatic(s.config, n, v) && Mirrors(v, e.members[n]);
    QuorumIsMajority(s, n);
    E.CampaignKeeps(e, n);
    ElectionSettles(s, e, n, StartElection(v), Campaigning(n, v.term + 1), E.Campaign(e, n));
  }

  /** The reply is for the election under way. */
  ghost predicate Counts(s: State, m: Message) {
    && m in s.net && m.VoteResp? && m.cand in s.servers && E.Vote(m.voter, m.term, m.cand) !in s.returned
    && var v := s.servers[m.cand]; m.vote.term <= v.term && v.role == Candidate && m.vote.granted && v.term == m.term
  }

  /** One more vote: this voter was not counted before. */
  lemma OneMoreVote(s: State, e: E.State, m: Message)
    requires Static(s) && VoteView(s, e) && OfficeView(s, e) && E.VoteInv(e) && Counts(s, m)
    ensures m.cand in e.members && |e.members[m.cand].granted + {m.voter}| == s.servers[m.cand].votes + 1
    ensures Installed(s, m.cand, s.servers[m.cand].(votes := s.servers[m.cand].votes + 1),
                      SILENT.(returned := {E.Vote(m.voter, m.term, m.cand)}),
                        E.Count(e, m.cand, m.voter).members[m.cand])
    ensures E.Vote(m.voter, m.term, m.cand) in e.votes
  {
    assert Office(s, e, m.cand) && Backed(e, m) && MessageStatic(s.config.Keys, m);
  }

  /** A vote counted: the node leads once it has a quorum. */
  lemma CountedReply(v: Server, r: VoteReply)
    requires r.term <= v.term && v.role == Candidate && r.granted
    ensures var w := HandleVoteReply(v, r);
            && w.role == (if v.votes + 1 >= Quorum(v) then Leader else Candidate) && w.term == v.term
            && w.votes == v.votes + 1
            && w.(role := Candidate, votes := v.votes + 1, leader := v.leader, nextIndex := v.nextIndex,
                  matchIndex := v.matchIndex)
               == v.(votes := v.votes + 1)
  {
  }

  lemma InstalledSame(s: State, n: NodeId, x: Server, y: Server, fx: Effect, m: E.Member)
    requires Installed(s, n, x, fx, m) && y.role == x.role && y.term == x.term && y.votes == x.votes
    ensures Installed(s, n, y, fx, m)
  {
  }

  lemma CountOffice(s: State, e: E.State, m: Message)
    requires Static(s) && VoteView(s, e) && OfficeView(s, e) && E.VoteInv(e) && E.WinInv(e) && Counts(s, m)
    ensures OfficeView(VoteRespNext(s, m), VoteRespStep(e, s.servers[m.cand], m))
    ensures E.WinInv(VoteRespStep(e, s.servers[m.cand], m))
  {
    var n := m.cand;
    var v := s.servers[n];
    CandidateFacts(s, e, n);
    hide VoteView, OfficeView, Static, E.VoteInv, E.WinInv, HandleVoteReply, Installed;
    OneMoreVote(s, e, m);
    QuorumIsMajority(s, n);
    E.CountKeeps(e, n, m.voter);
    CountedReply(v, m.vote);
    var w, fx, e1 := HandleVoteReply(v, m.vote), SILENT.(returned := {E.Vote(m.voter, m.term, n)}),
                     E.Count(e, n, m.voter);
    InstalledSame(s, n, v.(votes := v.votes + 1), w.(role := Candidate, votes := |e1.members[n].granted|), fx,
                  e1.members[n]);
    ElectionSettles(s, e, n, w, fx, e1);
  }

  lemma CandidateFacts(s: State, e: E.State, n: NodeId)
    requires VoteView(s, e) && OfficeView(s, e) && E.VoteInv(e) && E.WinInv(e) && n in s.servers
             && s.servers[n].role == Candidate
    ensures s.servers.Keys == e.members.Keys
    ensures e.members[n].role == Candidate && e.members[n].ballot.term == s.servers[n].term > 0
  {
    assert Mirrors(s.servers[n], e.members[n]) && E.RoleOk(e, n) && Office(s, e, n);
  }

  lemma VoteRespOffice(s: State, e: E.State, m: Message)
    requires Static(s) && VoteView(s, e) && OfficeView(s, e) && E.VoteInv(e) && E.WinInv(e)
    requires m in s.net && m.VoteResp? && m.cand in s.servers && E.Vote(m.voter, m.term, m.cand) !in s.returned
    requires FreshVote(s.servers[m.cand], m)
    ensures OfficeView(VoteRespNext(s, m), VoteRespStep(e, s.servers[m.cand], m))
    ensures E.WinInv(VoteRespStep(e, s.servers[m.cand], m))
  {
    var n := m.cand;
    var v := s.servers[n];
    var fx := SILENT.(returned := {E.Vote(m.voter, m.term, n)});
    if m.vote.term > v.term {
      AdoptOffice(s, e, n, HandleVoteReply(v, m.vote), fx, m.vote.term, false);
    } else if v.role != Candidate || !m.vote.granted {
      QuietOffice(s, e, n, HandleVoteReply(v, m.vote), fx);
    } else {
      CountOffice(s, e, m);
    }
  }

  /** Answering a vote request leaves the office alone, apart from adopting the term. */
  lemma VoteReqStepKeeps(e: E.State, v: Server, m: Message)
    requires m.VoteReq? && m.to in e.members && m.cand in e.members && m.cand != NOBODY && E.VoteInv(e) && E.WinInv(e)
    requires Mirrors(v, e.members[m.to]) && m.term <= e.members[m.cand].disk.term
    ensures var e' := VoteReqStep(e, v, m);
            && E.WinInv(e') && e'.wins == e.wins && m.to in e'.members
            && e'.members == e.members[m.to := e'.members[m.to]]
            && SameMember(e.members[m.to], e'.members[m.to], if Known(v, m.cand) then m.term else 0)
  {
    E.AdoptKeeps(e, m.to, m.term, true);
    if Known(v, m.cand) && RequestVote(v, m.cand, m.term, m.lastIndex, m.lastTerm).1.granted {
      E.GrantKeeps(E.Adopt(e, m.to, m.term, true), m.to, m.cand);
    }
  }

  lemma VoteReqOffice(s: State, e: E.State, m: Message)
    requires Static(s) && VoteView(s, e) && OfficeView(s, e) && E.VoteInv(e) && E.WinInv(e)
    requires m in s.net && m.VoteReq? && m.to in s.servers
    ensures OfficeView(VoteReqNext(s, m), VoteReqStep(e, s.servers[m.to], m))
    ensures E.WinInv(VoteReqStep(e, s.servers[m.to], m))
  {
    var n := m.to;
    var v := s.servers[n];
    assert Mirrors(v, e.members[n]) && MessageStatic(s.config.Keys, m) && Backed(e, m);
    VoteReqStepKeeps(e, v, m);
    var (w, r) := RequestVote(v, m.cand, m.term, m.lastIndex, m.lastTerm);
    KeepOffice(s, e, n, w, SILENT.(sent := {VoteResp(n, m.cand, m.term, r)},
                                   grants := if r.granted then {E.Vote(n, m.term, m.cand)} else {}),
               if Known(v, m.cand) then m.term else 0, VoteReqStep(e, v, m));
  }

  // ------------------------------------------------------------- the other events

  lemma AppendOffice(s: State, e: E.State, m: Message)
    requires VoteView(s, e) && OfficeView(s, e) && E.VoteInv(e) && E.WinInv(e) && m.AppendReq? && m.to in s.servers
    ensures var e' := if Known(s.servers[m.to], m.q.leader) then E.Adopt(e, m.to, m.q.term, true) else e;
            OfficeView(AppendNext(s, m), e') && E.WinInv(e')
  {
    var v := s.servers[m.to];
    var (w, r) := AppendEntries(v, m.q);
    var fx := SILENT.(sent := {AppendResp(m.to, m.q, r)},
                      accepts := if r.success then {Accept(m.to, m.q.term, m.q.prev + |m.q.entries|)} else {});
    if Known(v, m.q.leader) {
      AdoptOffice(s, e, m.to, w, fx, m.q.term, true);
    } else {
      QuietOffice(s, e, m.to, w, fx);
    }
  }

  lemma InstallOffice(s: State, e: E.State, m: Message)
    requires VoteView(s, e) && OfficeView(s, e) && E.VoteInv(e) && E.WinInv(e) && m.SnapReq? && m.to in s.servers
    ensures OfficeView(InstallNext(s, m), E.Adopt(e, m.to, m.term, true)) && E.WinInv(E.Adopt(e, m.to, m.term, true))
  {
    var v := s.servers[m.to];
    AdoptOffice(s, e, m.to, InstallSnapshot(v, m.term, m.sn),
                if m.term < v.term then SILENT
                   else SILENT.(accepts := {Accept(m.to, m.term, m.sn.index)}), m.term, true);
  }

  lemma CrashOffice(s: State, e: E.State, n: NodeId)
    requires Static(s) && VoteView(s, e) && OfficeView(s, e) && E.VoteInv(e) && E.WinInv(e) && n in s.servers
             && n in s.config
    ensures OfficeView(Post(s, n, Boot(n, s.config[n], s.servers[n].disk), SILENT), E.Restart(e, n))
            && E.WinInv(E.Restart(e, n))
  {
    assert ServerStatic(s.config, n, s.servers[n]);
    BootLoads(n, s.config[n], s.servers[n].disk);
    E.RestartKeeps(e, n);
    PostOffice(s, e, n, Boot(n, s.config[n], s.servers[n].disk), SILENT, E.Restart(e, n));
  }

  lemma ApplyOffice(s: State, e: E.State, n: NodeId)
    requires Static(s) && VoteView(s, e) && OfficeView(s, e) && E.WinInv(e) && n in s.servers && CanApply(s.servers[n])
    ensures OfficeView(ApplyOneNext(s, n), e)
  {
    var v := s.servers[n];
    assert ServerStatic(s.config, n, v);
    var (w, x) := ApplyNext(v);
    QuietOffice(s, e, n, w, SILENT.(applied := {P.Applied(n, v.lastApplied + 1, x)}));
  }

  lemma AdoptEventOffice(s: State, ev: Event, e: E.State)
    requires Static(s) && Enabled(s, ev) && VoteView(s, e) && OfficeView(s, e) && E.VoteInv(e) && E.WinInv(e)
    requires ev.Transfer? || ev.Transferred? || ev.DeliverAppendResp?
    ensures OfficeView(Next(s, ev), VoteStep(s, ev, e)) && E.WinInv(VoteStep(s, ev, e))
  {
    match ev
    case Transfer(n, t) => AdoptOffice(s, e, n, StepUp(s.servers[n], t), SILENT, t, true);
    case Transferred(n, x, t) => AdoptOffice(s, e, n, TransferReply(s.servers[n], x, t), SILENT, t, true);
    case DeliverAppendResp(m) =>
      AdoptOffice(s, e, m.q.leader, HandleAppendReply(s.servers[m.q.leader], m.peer, m.q, m.reply), SILENT,
                  m.reply.term, true);
  }

  lemma QuietEventOffice(s: State, ev: Event, e: E.State)
    requires Static(s) && Enabled(s, ev) && VoteView(s, e) && OfficeView(s, e) && E.WinInv(e)
    requires ev.Submit? || ev.SnapshotCallDone? || ev.CountCommit? || ev.Snap? || ev.AskVote? || ev.SendAppend?
             || ev.SendSnapshot?
    ensures OfficeView(Next(s, ev), e)
  {
    KeysAgree(s, e);
    hide VoteView, OfficeView, Static, E.WinInv;
    match ev
    case AskVote(n, p, t) =>
      QuietOffice(s, e, n, s.servers[n],
                  SILENT.(sent := {VoteReq(n, p, t, Last(s.servers[n]), LastTerm(s.servers[n].log))}));
    case Submit(n, c) => QuietOffice(s, e, n, Propose(s.servers[n], c).0, SILENT);
    case SendAppend(n, p, t, prev, lo, hi) =>
      QuietOffice(s, e, n, s.servers[n], SILENT.(sent := {AppendReq(p, Request(s.servers[n], t, prev, lo, hi))}));
    case SendSnapshot(n, p, t) => QuietOffice(s, e, n, s.servers[n],
                                              SILENT.(sent := {SnapReq(n, p, t, s.servers[n].snap.value)}));
    case SnapshotCallDone(m) => QuietOffice(s, e, m.sender, SnapshotSent(s.servers[m.sender], m.to, m.sn.index),
                                            SILENT);
    case CountCommit(n) => QuietOffice(s, e, n, UpdateCommit(s.servers[n]), SILENT);
    case Snap(n, data) => QuietOffice(s, e, n, CreateSnapshot(s.servers[n], data), SILENT);
  }

  lemma BallotEventOffice(s: State, ev: Event, e: E.State)
    requires Static(s) && Enabled(s, ev) && FreshElections(s, ev) && VoteView(s, e) && OfficeView(s, e) && E.VoteInv(e)
             && E.WinInv(e)
    requires ev.Timeout? || ev.DeliverVoteReq? || ev.DeliverVoteResp?
    ensures OfficeView(Next(s, ev), VoteStep(s, ev, e)) && E.WinInv(VoteStep(s, ev, e))
  {
    KeysAgree(s, e);
    hide VoteView, OfficeView, Static, E.VoteInv, E.WinInv, RequestVote, HandleVoteReply, StartElection;
    match ev
    case Timeout(n) => TimeoutOffice(s, e, n);
    case DeliverVoteReq(m) => VoteReqOffice(s, e, m);
    case DeliverVoteResp(m) => VoteRespOffice(s, e, m);
  }

  lemma LogEventOffice(s: State, ev: Event, e: E.State)
    requires Static(s) && Enabled(s, ev) && VoteView(s, e) && OfficeView(s, e) && E.VoteInv(e) && E.WinInv(e)
    requires ev.DeliverAppend? || ev.DeliverSnapshot? || ev.ApplyOne? || ev.Crash?
    ensures OfficeView(Next(s, ev), VoteStep(s, ev, e)) && E.WinInv(VoteStep(s, ev, e))
  {
    KeysAgree(s, e);
    hide VoteView, OfficeView, Static, E.VoteInv, E.WinInv, E.Adopt, AppendEntries, InstallSnapshot, ApplyNext, Boot;
    match ev
    case DeliverAppend(m) => AppendOffice(s, e, m);
    case DeliverSnapshot(m) => InstallOffice(s, e, m);
    case ApplyOne(n) => ApplyOffice(s, e, n);
    case Crash(n) => CrashOffice(s, e, n);
  }

  /** Every event with fresh vote counting is a step of the election protocol. */
  lemma NextOffices(s: State, ev: Event, e: E.State)
    requires Static(s) && Enabled(s, ev) && FreshElections(s, ev) && VoteView(s, e) && OfficeView(s, e) && E.VoteInv(e)
             && E.WinInv(e)
    ensures OfficeView(Next(s, ev), VoteStep(s, ev, e)) && E.WinInv(VoteStep(s, ev, e))
  {
    KeysAgree(s, e);
    hide VoteView, OfficeView, Static, E.VoteInv, E.WinInv, Next;
    if ev.Transfer? || ev.Transferred? || ev.DeliverAppendResp? {
      AdoptEventOffice(s, ev, e);
    } else if ev.Submit? || ev.SnapshotCallDone? || ev.CountCommit? || ev.Snap? || ev.AskVote? || ev.SendAppend?
      || ev.SendSnapshot? {
      QuietEventOffice(s, ev, e);
    } else if ev.Timeout? || ev.DeliverVoteReq? || ev.DeliverVoteResp? {
      BallotEventOffice(s, ev, e);
    } else {
      LogEventOffice(s, ev, e);
    }
  }
}
