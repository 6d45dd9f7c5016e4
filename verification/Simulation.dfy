/** Every assumed event of the cluster is a sequence of steps of the uncompacted protocol. */
module Simulation {
  import opened Types
  import opened Server
  import opened Cluster
  import opened Membership
  import opened Votes
  import opened Compaction
  import opened Logs
  import E = Election
  import P = Protocol
  import S = ProtocolSteps

  /** The cluster state s stands for the protocol state a, and a is sound. */
  ghost predicate Refines(s: State, a: P.State) {
    Static(s) && VoteView(s, a.e) && OfficeView(s, a.e) && LogView(s, a) && P.Inv(a)
  }

  // ------------------------------------------------------ evolution, step by step

  lemma GrowSame(r: map<nat, P.Reign>)
    requires P.ReignsOk(r)
    ensures S.Grow(r, r)
  {
    forall t | t in r ensures S.Kept(r, r, t) { assert P.ReignOk(r, t); }
  }

  /** Steps that leave logs alone and touch only the ballot of n. */
  lemma BallotEvolves(a: P.State, a': P.State, n: NodeId)
    requires P.Inv(a) && S.BallotsOnly(a, a') && n in a.nodes && a'.e.wins == a.e.wins
    requires n in a'.e.members && a'.e.members == a.e.members[n := a'.e.members[n]]
    requires a.e.members[n].disk.term <= a'.e.members[n].disk.term
    requires S.OfficeOk(a, a', n)
    requires a'.e.members[n].role == Candidate && a'.e.members[n].ballot.term <= a.e.members[n].disk.term ==>
               a.e.members[n].role == Candidate && a.e.members[n].ballot.term == a'.e.members[n].ballot.term
    ensures Evolves(a, a')
  {
    GrowSame(a.reigns);
    forall k | k in a.nodes ensures Evolved(a, a', k) {}
  }

  lemma CampaignEvolves(a: P.State, n: NodeId)
    requires P.Inv(a) && n in a.nodes && n != NOBODY
    ensures Evolves(a, S.Campaign(a, n)) && P.Inv(S.Campaign(a, n))
  {
    S.CampaignKeeps(a, n);
    forall v | v in a.e.votes && v.cand == n ensures v.term < a.e.members[n].ballot.term + 1 {
      assert E.VoteRecorded(a.e, v);
    }
    BallotEvolves(a, S.Campaign(a, n), n);
  }

  lemma AdoptEvolves(a: P.State, n: NodeId, t: nat, saved: bool)
    requires P.Inv(a) && n in a.nodes
    ensures Evolves(a, S.Adopt(a, n, t, saved)) && P.Inv(S.Adopt(a, n, t, saved))
  {
    S.AdoptKeeps(a, n, t, saved);
    BallotEvolves(a, S.Adopt(a, n, t, saved), n);
  }

  lemma GrantEvolves(a: P.State, n: NodeId, c: NodeId)
    requires P.Inv(a) && n in a.nodes && c in a.nodes && S.MayGrant(a, n, c)
    ensures Evolves(a, S.Grant(a, n, c)) && P.Inv(S.Grant(a, n, c))
  {
    S.GrantKeeps(a, n, c);
    BallotEvolves(a, S.Grant(a, n, c), n);
  }

  lemma CountEvolves(a: P.State, c: NodeId, p: NodeId)
    requires P.Inv(a) && c in a.nodes && E.Vote(p, a.e.members[c].ballot.term, c) in a.e.votes
    ensures Evolves(a, S.Count(a, c, p)) && P.Inv(S.Count(a, c, p))
  {
    S.CountKeeps(a, c, p);
    BallotEvolves(a, S.Count(a, c, p), c);
  }

  lemma RestartEvolves(a: P.State, n: NodeId)
    requires P.Inv(a) && n in a.nodes && a.nodes[n].ackTerm <= a.e.members[n].disk.term
    ensures Evolves(a, S.Restart(a, n)) && P.Inv(S.Restart(a, n))
  {
    S.RestartKeeps(a, n);
    BallotEvolves(a, S.Restart(a, n), n);
  }

  lemma OfficeEvolved(a: P.State, c: NodeId, k: NodeId)
    requires a.nodes.Keys == a.e.members.Keys && c in a.nodes && k in a.nodes
    ensures Evolved(a, S.TakeOffice(a, c), k)
  {
  }

  lemma OfficeFacts(a: P.State, c: NodeId)
    requires c in a.nodes && c in a.e.members && a.e.members[c].ballot.term !in a.e.wins
    ensures var a' := S.TakeOffice(a, c);
            && a'.nodes == a.nodes && S.AcksGrow(a, a')
            && forall t :: t in a.e.wins ==> t in a'.e.wins && a'.e.wins[t] == a.e.wins[t]
  {
  }

  lemma TakeOfficeEvolves(a: P.State, c: NodeId)
    requires P.Inv(a) && c in a.nodes && c in a.e.members && E.CanTakeOffice(a.e, c)
    ensures Evolves(a, S.TakeOffice(a, c)) && P.Inv(S.TakeOffice(a, c)) && a.e.members[c].ballot.term !in a.reigns
  {
    hide P.Inv, P.ReignsOk, P.NodeOk, P.CommitOk, E.CanTakeOffice, S.Grow, Evolved, S.AcksGrow;
    ProtocolFacts(a, c);
    S.TakeOfficeKeeps(a, c);
    S.TakeOfficeReigns(a, c);
    OfficeFacts(a, c);
    hide S.TakeOffice;
    forall k | k in a.nodes ensures Evolved(a, S.TakeOffice(a, c), k) { OfficeEvolved(a, c, k); }
  }

  lemma ProposeEvolves(a: P.State, n: NodeId, cmd: Command)
    requires P.Inv(a) && n in a.nodes && a.e.members[n].role == Leader
    ensures a.e.members[n].ballot.term in a.reigns && Evolves(a, S.Propose(a, n, cmd)) && P.Inv(S.Propose(a, n, cmd))
  {
    S.ProposeKeeps(a, n, cmd);
    S.ProposeReigns(a, n, cmd);
    var a', t := S.Propose(a, n, cmd), a.e.members[n].ballot.term;
    assert P.NodeOk(a, n) && ((n, t) in a.acked ==> P.AckOk(a, n, t));
    forall k | k in a.nodes ensures Evolved(a, a', k) {}
  }

  lemma AcceptEvolves(a: P.State, n: NodeId, hi: nat, commit: nat, ct: nat, ck: nat)
    requires P.Inv(a) && n in a.nodes && S.MayAccept(a, n, hi, commit, ct, ck)
    ensures Evolves(a, S.Accept(a, n, hi, commit, ct, ck)) && P.Inv(S.Accept(a, n, hi, commit, ct, ck))
  {
    S.AcceptKeeps(a, n, hi, commit, ct, ck);
    GrowSame(a.reigns);
    var a' := S.Accept(a, n, hi, commit, ct, ck);
    forall k | k in a.nodes ensures Evolved(a, a', k) {}
  }

  lemma AdvanceEvolves(a: P.State, n: NodeId, k: nat)
    requires P.Inv(a) && n in a.nodes && a.e.members[n].role == Leader
    requires a.nodes[n].commit < k < |a.nodes[n].log| && P.Chosen(a, a.e.members[n].ballot.term, k)
    ensures Evolves(a, S.AdvanceCommit(a, n, k)) && P.Inv(S.AdvanceCommit(a, n, k))
  {
    S.AdvanceCommitKeeps(a, n, k);
    GrowSame(a.reigns);
    forall m | m in a.nodes ensures Evolved(a, S.AdvanceCommit(a, n, k), m) {}
  }

  lemma EvolvesTwice(a: P.State, a1: P.State, a2: P.State)
    requires Evolves(a, a1) && Evolves(a1, a2)
    ensures Evolves(a, a2)
  {
    forall t | t in a.reigns ensures S.Kept(a.reigns, a2.reigns, t) {
      assert S.Kept(a.reigns, a1.reigns, t) && S.Kept(a1.reigns, a2.reigns, t);
    }
    forall n | n in a.nodes ensures Evolved(a, a2, n) {
      assert Evolved(a, a1, n) && Evolved(a1, a2, n);
    }
  }

  // --------------------------------------------------- events that keep the logs

  ghost predicate SameLogs(v: Server, w: Server) {
    && w.log == v.log && w.base == v.base && w.snap == v.snap
    && w.commitIndex == v.commitIndex && w.lastApplied == v.lastApplied
    && w.disk.log == v.disk.log && w.disk.snap == v.disk.snap
  }

  lemma SameServerView(s: State, s': State, a: P.State, a': P.State, n: NodeId)
    requires Evolves(a, a') && ServerView(s, a, n) && n in s'.servers && a'.nodes == a.nodes
    requires SameLogs(s.servers[n], s'.servers[n]) && s.servers[n].disk.term <= s'.servers[n].disk.term
    requires s.hist.commits <= s'.hist.commits && s.hist.accepts <= s'.hist.accepts
    requires LeaderView(a', n, s'.servers[n])
    ensures ServerView(s', a', n)
  {
    if a.nodes[n].commit > 0 { assert S.Kept(a.reigns, a'.reigns, a.nodes[n].certTerm); }
    assert AckView(s'.hist, n, s'.servers[n], a.nodes[n]);
  }

  /** A step that moves ballots, roles or peer indices and sends at most vote replies or sound messages. */
  lemma BallotLogs(s: State, a: P.State, n: NodeId, w: Server, fx: Effect, a': P.State)
    requires LogView(s, a) && n in s.servers && Evolves(a, a')
    requires a'.nodes == a.nodes && a'.acked == a.acked && a'.applied == a.applied
    requires SameLogs(s.servers[n], w) && s.servers[n].disk.term <= w.disk.term && LeaderView(a', n, w)
    requires fx.accepts == {} && fx.applied == {} && forall m :: m in fx.sent ==>
               m.VoteResp? || MessageView(s.hist, a', m)
    ensures LogView(Post(s, n, w, fx), a')
  {
    var s' := Post(s, n, w, fx);
    assert ServerView(s, a, n);
    SameServerView(s, s', a, a', n);
    HistoryEvolves(s.hist, s'.hist, a, a');
    forall m | m in fx.sent ensures MessageView(s'.hist, a', m) {
      if !m.VoteResp? { MessageSameCommits(s.hist, s'.hist, a', m); }
    }
    PostLogs(s, a, n, w, fx, a');
  }

  lemma MessageSameCommits(h: History, h': History, a: P.State, m: Message)
    requires h'.commits == h.commits && MessageView(h, a, m)
    ensures MessageView(h', a, m)
  {
    forall ct, ck ensures Logged(h', a, ct, ck) == Logged(h, a, ct, ck) {}
  }

  lemma SameEvolves(a: P.State)
    requires P.Inv(a)
    ensures Evolves(a, a)
  {
    GrowSame(a.reigns);
    forall k | k in a.nodes ensures Evolved(a, a, k) { assert P.NodeOk(a, k); }
  }

  /** Adopting a term changes no log. */
  lemma SimAdopt(s: State, a: P.State, n: NodeId, v: Server, w: Server, fx: Effect, t: nat, saved: bool)
    requires LogView(s, a) && P.Inv(a) && n in s.servers && s.servers[n] == v && Mirrors(v, a.e.members[n])
    requires Untouched(v, w, t)
    requires fx.accepts == {} && fx.applied == {}
    requires forall m :: m in fx.sent ==> m.VoteResp? || (m.AppendResp? && SliceView(a, m.q) && !m.reply.success)
    ensures var a' := S.Adopt(a, n, t, saved); LogView(Post(s, n, w, fx), a') && P.Inv(a') && Evolves(a, a')
  {
    hide P.Inv, LogView, Evolves, HistoryView, P.NodeOk, P.CommitOk, E.RoleOk, LeaderView, SliceView, Mirrors;
    NodeFacts(s, a, n);
    AdoptEvolves(a, n, t, saved);
    var a' := S.Adopt(a, n, t, saved);
    LeaderStays(a, a', n, v, w);
    hide ServerView;
    forall m | m in fx.sent && !m.VoteResp? ensures MessageView(s.hist, a', m) {
      SliceViewEvolves(a, a', m.q);
    }
    BallotLogs(s, a, n, w, fx, a');
  }

  // ---------------------------------------------------------------- elections

  /** A leader fresh in office believes its peers hold the log up to its base, and sends from its end. */
  ghost predicate FreshLeader(v: Server, w: Server) {
    w.role == Leader ==> forall p :: p in w.peers ==>
      Get(w.nextIndex, p) == Last(v) + 1 && Get(w.matchIndex, p) == v.base
  }

  lemma StartElectionFacts(v: Server)
    requires !v.removed
    ensures var w := StartElection(v);
            && Campaigns(v, w) && SameLogs(v, w) && FreshLeader(v, w)
            && (w.role == Leader <==> Quorum(v) <= 1)
  {
  }

  lemma HandleVoteReplyFacts(v: Server, r: VoteReply)
    ensures var w := HandleVoteReply(v, r);
            && SameLogs(v, w) && w.disk == v.disk && w.peers == v.peers
            && (r.term > v.term ==> w.role == Follower)
            && (r.term <= v.term ==> w.term == v.term)
            && (r.term <= v.term && (v.role != Candidate || !r.granted) ==> w == v)
            && (r.term <= v.term && v.role == Candidate && r.granted ==>
                  FreshLeader(v, w) && w.role == (if v.votes + 1 >= Quorum(v) then Leader else Candidate))
  {
  }

  lemma FreshLeaderView(s: State, a: P.State, a': P.State, n: NodeId, w: Server)
    requires ServerView(s, a, n) && P.NodeOk(a, n) && P.CommitOk(a, n) && a'.nodes == a.nodes
    requires SameLogs(s.servers[n], w) && FreshLeader(s.servers[n], w)
    requires w.term in a'.reigns && a'.reigns[w.term].start == |a.nodes[n].log|
    ensures LeaderView(a', n, w)
  {
    CompactedShape(a.reigns, w.log, w.base, a.nodes[n].log);
  }

  /** A candidate takes office if it just became leader. */
  lemma SettleStep(s: State, a: P.State, a1: P.State, n: NodeId, w: Server) returns (a': P.State)
    requires P.Inv(a) && P.Inv(a1) && Evolves(a, a1) && a1.nodes == a.nodes && a1.acked == a.acked
             && a1.applied == a.applied
    requires n in a.nodes && ServerView(s, a, n) && SameLogs(s.servers[n], w) && FreshLeader(s.servers[n], w)
    requires w.role == Leader ==> E.CanTakeOffice(a1.e, n) && a1.e.members[n].ballot.term == w.term
    ensures a'.e == (if w.role == Leader then E.TakeOffice(a1.e, n) else a1.e)
    ensures P.Inv(a') && Evolves(a, a') && a'.nodes == a.nodes && a'.acked == a.acked && a'.applied == a.applied
    ensures LeaderView(a', n, w)
  {
    ProtocolFacts(a, n);
    hide P.Inv, Evolves;
    a' := a1;
    if w.role == Leader {
      TakeOfficeEvolves(a1, n);
      a' := S.TakeOffice(a1, n);
      EvolvesTwice(a, a1, a');
      FreshLeaderView(s, a, a', n, w);
    }
  }

  lemma SimCampaign(s: State, a: P.State, n: NodeId, v: Server, w: Server) returns (a': P.State)
    requires LogView(s, a) && P.Inv(a) && n in s.servers && s.servers[n] == v && n != NOBODY && v.id == n
    requires Mirrors(v, a.e.members[n]) && Quorum(v) == |s.servers.Keys| / 2 + 1
    requires Campaigns(v, w) && SameLogs(v, w) && FreshLeader(v, w) && (w.role == Leader <==> Quorum(v) <= 1)
    ensures a'.e == Campaigned(a.e, n, w)
    ensures LogView(Post(s, n, w, Campaigning(n, v.term + 1)), a') && P.Inv(a') && Evolves(a, a')
  {
    hide P.Inv, LogView, Evolves, ServerView, HistoryView, P.NodeOk, P.CommitOk, LeaderView;
    NodeFacts(s, a, n);
    CampaignEvolves(a, n);
    var a1 := S.Campaign(a, n);
    assert a1.e.members.Keys == s.servers.Keys;
    a' := SettleStep(s, a, a1, n, w);
    assert v.disk.term <= w.disk.term;
    BallotLogs(s, a, n, w, Campaigning(n, v.term + 1), a');
  }

  /** With a quorum of votes counted, the candidate can take office. */
  lemma EnoughVotes(e: E.State, n: NodeId, voter: NodeId, v: Server)
    requires n in e.members && Mirrors(v, e.members[n]) && E.RoleOk(e, n) && v.role == Candidate == e.members[n].role
             && voter in e.members
    requires |e.members[n].granted + {voter}| == v.votes + 1
    ensures E.Count(e, n, voter).members.Keys == e.members.Keys && E.Count(e, n, voter).members[n].ballot.term == v.term
    ensures v.votes + 1 >= |e.members.Keys| / 2 + 1 ==> E.CanTakeOffice(E.Count(e, n, voter), n)
  {
    assert E.Count(e, n, voter).members.Keys == e.members.Keys;
  }

  lemma SimCount(s: State, a: P.State, m: Message, v: Server, w: Server) returns (a': P.State)
    requires LogView(s, a) && P.Inv(a) && m.VoteResp? && m.cand in s.servers && s.servers[m.cand] == v
    requires Mirrors(v, a.e.members[m.cand]) && Quorum(v) == |s.servers.Keys| / 2 + 1
    requires v.role == Candidate == a.e.members[m.cand].role && E.Vote(m.voter, v.term, m.cand) in a.e.votes
    requires |a.e.members[m.cand].granted + {m.voter}| == v.votes + 1 && m.voter in s.servers
    requires SameLogs(v, w) && w.disk == v.disk && FreshLeader(v, w) && w.term == v.term
    requires w.role == (if v.votes + 1 >= Quorum(v) then Leader else Candidate)
    ensures var e1 := E.Count(a.e, m.cand, m.voter); a'.e == (if w.role == Leader then E.TakeOffice(e1, m.cand) else e1)
    ensures LogView(Post(s, m.cand, w, SILENT.(returned := {E.Vote(m.voter, m.term, m.cand)})), a') && P.Inv(a')
            && Evolves(a, a')
  {
    var n := m.cand;
    hide P.Inv, LogView, Evolves, ServerView, HistoryView, P.NodeOk, P.CommitOk, LeaderView, FreshLeader;
    NodeFacts(s, a, n);
    CountEvolves(a, n, m.voter);
    var a1 := S.Count(a, n, m.voter);
    EnoughVotes(a.e, n, m.voter, v);
    hide E.RoleOk, E.CanTakeOffice, E.Count, Mirrors;
    a' := SettleStep(s, a, a1, n, w);
    BallotLogs(s, a, n, w, SILENT.(returned := {E.Vote(m.voter, m.term, n)}), a');
  }

  /** The up-to-date check on compacted logs is the check on full logs. */
  lemma VoteMayBeGranted(s: State, a: P.State, m: Message, n: NodeId, v: Server)
    requires P.Inv(a) && m.VoteReq? && n in a.nodes && m.cand in a.nodes && m.cand != n && m.cand != NOBODY
    requires ServerView(s, a, n) && s.servers[n] == v && Mirrors(v, a.e.members[n]) && v.term <= m.term
    requires AskView(a, m.cand, m.term, m.lastIndex, m.lastTerm)
    requires UpToDate(m.lastTerm, m.lastIndex, LastTerm(v.log), Last(v))
             && (v.term == m.term ==> v.votedFor in {NOBODY, m.cand})
    ensures S.MayGrant(S.Adopt(a, n, m.term, true), n, m.cand)
  {
    assert P.NodeOk(a, n) && P.NodeOk(a, m.cand);
    CompactedShape(a.reigns, v.log, v.base, a.nodes[n].log);
  }

  /** What granting a vote for term t does. */
  ghost predicate GrantsVote(v: Server, w: Server, c: NodeId, t: nat) {
    && SameLogs(v, w) && w.term == t >= v.term && w.votedFor == c && w.disk.term == t
    && (if t > v.term then w.role == Follower else w.role == v.role)
    && w.peers == v.peers && w.nextIndex == v.nextIndex && w.matchIndex == v.matchIndex
    && (v.term == t ==> v.votedFor in {NOBODY, c})
  }

  lemma RequestVoteFacts(v: Server, c: NodeId, t: nat, li: nat, lt: nat)
    requires v.disk.term <= v.term
    ensures var (w, r) := RequestVote(v, c, t, li, lt);
            && SameLogs(v, w)
            && (r.granted ==> GrantsVote(v, w, c, t) && Known(v, c) && UpToDate(lt, li, LastTerm(v.log), Last(v)))
            && (!r.granted ==> Untouched(v, w, if Known(v, c) then t else 0))
  {
  }

  /** Apart from adopting term t, the node is as it was. */
  ghost predicate Untouched(v: Server, w: Server, t: nat) {
    && SameLogs(v, w) && w.disk.term >= v.disk.term
    && if t > v.term then w.role != Leader
       else w.role == v.role && w.term == v.term && w.peers == v.peers && w.nextIndex == v.nextIndex
            && w.matchIndex == v.matchIndex
  }

  lemma SimGrant(s: State, a: P.State, m: Message, n: NodeId, v: Server, w: Server, fx: Effect) returns (a': P.State)
    requires LogView(s, a) && P.Inv(a) && m.VoteReq? && n in s.servers && s.servers[n] == v
             && Mirrors(v, a.e.members[n])
    requires m.cand in a.nodes && m.cand != n && m.cand != NOBODY
    requires AskView(a, m.cand, m.term, m.lastIndex, m.lastTerm)
    requires UpToDate(m.lastTerm, m.lastIndex, LastTerm(v.log), Last(v)) && GrantsVote(v, w, m.cand, m.term)
    requires fx.accepts == {} && fx.applied == {} && forall x :: x in fx.sent ==> x.VoteResp?
    ensures a'.e == E.Grant(E.Adopt(a.e, n, m.term, true), n, m.cand)
    ensures LogView(Post(s, n, w, fx), a') && P.Inv(a') && Evolves(a, a')
  {
    hide P.Inv, LogView, Evolves, HistoryView, P.NodeOk, P.CommitOk, E.RoleOk, LeaderView;
    NodeFacts(s, a, n);
    VoteMayBeGranted(s, a, m, n, v);
    AdoptEvolves(a, n, m.term, true);
    var a1 := S.Adopt(a, n, m.term, true);
    GrantEvolves(a1, n, m.cand);
    a' := S.Grant(a1, n, m.cand);
    EvolvesTwice(a, a1, a');
    LeaderStays(a, a', n, v, w);
    hide LeaderView, ServerView;
    BallotLogs(s, a, n, w, fx, a');
  }

  /** A node that keeps its office keeps what it believes. */
  lemma LeaderStays(a: P.State, a': P.State, n: NodeId, v: Server, w: Server)
    requires n in a.nodes && LeaderView(a, n, v) && a'.nodes == a.nodes && a'.reigns == a.reigns && a'.acked == a.acked
    requires w.role == Leader ==>
               v.role == Leader && w.term == v.term && w.peers == v.peers && w.nextIndex == v.nextIndex
                                  && w.matchIndex == v.matchIndex && w.commitIndex == v.commitIndex
    ensures LeaderView(a', n, w)
  {
  }

  // -------------------------------------------------------------- sending requests

  /** What the refinement says of one node. */
  lemma NodeFacts(s: State, a: P.State, n: NodeId)
    requires LogView(s, a) && P.Inv(a) && n in s.servers
    ensures s.servers.Keys == a.nodes.Keys == a.e.members.Keys && a.reigns.Keys == a.e.wins.Keys
    ensures HistoryView(s.hist, a) && ServerView(s, a, n) && P.NodeOk(a, n) && P.CommitOk(a, n) && E.RoleOk(a.e, n)
    ensures a.e.members[n].disk.term <= a.e.members[n].ballot.term
  {
    assert ServerView(s, a, n) && P.NodeOk(a, n) && P.CommitOk(a, n) && E.RoleOk(a.e, n);
  }

  lemma ProtocolFacts(a: P.State, n: NodeId)
    requires P.Inv(a) && n in a.nodes
    ensures a.nodes.Keys == a.e.members.Keys && a.reigns.Keys == a.e.wins.Keys && P.ReignsOk(a.reigns)
    ensures P.NodeOk(a, n) && P.CommitOk(a, n)
  {
    assert P.NodeOk(a, n) && P.CommitOk(a, n);
  }

  /** A step that only sends a sound message. */
  lemma SimSend(s: State, a: P.State, n: NodeId, m: Message)
    requires LogView(s, a) && P.Inv(a) && n in s.servers && MessageView(s.hist, a, m)
    ensures LogView(SendNext(s, n, m), a)
  {
    SameEvolves(a);
    assert ServerView(s, a, n);
    BallotLogs(s, a, n, s.servers[n], SILENT.(sent := {m}), a);
  }

  lemma AskIsSound(s: State, a: P.State, n: NodeId, p: NodeId, t: nat)
    requires LogView(s, a) && P.Inv(a) && n in s.servers && t <= a.e.members[n].disk.term
    ensures MessageView(s.hist, a, VoteReq(n, p, t, Last(s.servers[n]), LastTerm(s.servers[n].log)))
  {
    var v := s.servers[n];
    assert ServerView(s, a, n) && P.NodeOk(a, n);
    CompactedShape(a.reigns, v.log, v.base, a.nodes[n].log);
  }

  /** What a leader holds committed is committed in its reign. */
  lemma LeaderCommitView(s: State, a: P.State, n: NodeId, i: nat)
    requires LogView(s, a) && P.Inv(a) && n in s.servers && a.e.members[n].role == Leader && i <= a.nodes[n].commit
    ensures CommitView(s.hist, a, a.e.members[n].ballot.term, i)
  {
    assert ServerView(s, a, n) && P.NodeOk(a, n) && P.CommitOk(a, n);
    var x := a.nodes[n];
    if i > 0 {
      assert S.Certified(a, a.e.members[n].ballot.term, i, x.certTerm, x.certIndex);
    }
  }

  /** A batch of a compacted log is a slice of the full one, with the right previous term. */
  lemma BatchIsSlice(v: Server, full: seq<Entry>, p: NodeId, t: nat, lo: nat, hi: nat)
    requires Compacts(v.log, v.base, full) && Shape(v.log, v.base) && Batch(v, p, lo, hi)
             && Get(v.nextIndex, p) <= |full|
    ensures var q := Request(v, t, lo, lo, hi);
            && lo + |q.entries| < |full|
            && (forall i :: 0 <= i < |q.entries| ==> q.entries[i] == full[lo + 1 + i])
            && q.prevTerm == full[lo].term
  {
    var q := Request(v, t, lo, lo, hi);
    assert lo > v.base ==> v.log[lo - v.base] == full[lo];
    forall i | 0 <= i < |q.entries| ensures q.entries[i] == full[lo + 1 + i] {
      assert full[lo + 1 + i] == v.log[lo + 1 + i - v.base];
    }
  }

  /** A request built by a leader speaks for its reign. */
  lemma RequestIsSound(s: State, a: P.State, n: NodeId, p: NodeId, lo: nat, hi: nat)
    requires LogView(s, a) && P.Inv(a) && n in s.servers && p in s.servers[n].peers && Batch(s.servers[n], p, lo, hi)
    requires s.servers[n].role == Leader == a.e.members[n].role && s.servers[n].term == a.e.members[n].ballot.term
             && s.servers[n].id == n
    ensures MessageView(s.hist, a, AppendReq(p, Request(s.servers[n], s.servers[n].term, lo, lo, hi)))
  {
    hide LogView, P.Inv;
    NodeFacts(s, a, n);
    var v, x := s.servers[n], a.nodes[n];
    CompactedShape(a.reigns, v.log, v.base, x.log);
    LeaderCommitView(s, a, n, v.commitIndex);
    BatchIsSlice(v, x.log, p, v.term, lo, hi);
  }

  lemma SnapshotIsSound(s: State, a: P.State, n: NodeId, p: NodeId)
    requires LogView(s, a) && P.Inv(a) && n in s.servers && s.servers[n].snap.Some?
    requires s.servers[n].role == Leader == a.e.members[n].role && s.servers[n].term == a.e.members[n].ballot.term
    ensures MessageView(s.hist, a, SnapReq(n, p, s.servers[n].term, s.servers[n].snap.value))
  {
    var v := s.servers[n];
    assert ServerView(s, a, n) && P.NodeOk(a, n) && E.RoleOk(a.e, n);
    LeaderCommitView(s, a, n, v.base);
  }

  // ------------------------------------------------------------------- proposing

  lemma ProposedView(s: State, a: P.State, a': P.State, n: NodeId, v: Server, cmd: Command)
    requires ServerView(s, a, n) && P.NodeOk(a, n) && s.servers[n] == v && Evolves(a, a') && n in a'.nodes
    requires v.role == Leader && v.term <= v.disk.term
    requires a'.nodes[n] == a.nodes[n].(log := a.nodes[n].log + [Entry(|a.nodes[n].log|, v.term, cmd)],
                                        ackTerm := v.term)
    ensures ServerView(Post(s, n, Propose(v, cmd).0, SILENT), a', n)
  {
    var x := a.nodes[n];
    var w := Propose(v, cmd).0;
    CompactedShape(a.reigns, v.log, v.base, x.log);
    assert Compacts(w.log, w.base, a'.nodes[n].log);
    assert S.Kept(a.reigns, a'.reigns, v.term);
    if x.commit > 0 { assert S.Kept(a.reigns, a'.reigns, x.certTerm); }
  }

  lemma SimPropose(s: State, a: P.State, n: NodeId, v: Server, cmd: Command) returns (a': P.State)
    requires LogView(s, a) && P.Inv(a) && n in s.servers && s.servers[n] == v && Mirrors(v, a.e.members[n])
    requires v.role == Leader == a.e.members[n].role
    ensures a'.e == a.e && LogView(Post(s, n, Propose(v, cmd).0, SILENT), a') && P.Inv(a') && Evolves(a, a')
  {
    hide LogView, P.Inv, Evolves, HistoryView, ServerView, P.NodeOk, P.CommitOk;
    NodeFacts(s, a, n);
    ProposeEvolves(a, n, cmd);
    a' := S.Propose(a, n, cmd);
    ProposedView(s, a, a', n, v, cmd);
    HistoryEvolves(s.hist, Post(s, n, Propose(v, cmd).0, SILENT).hist, a, a');
    PostLogs(s, a, n, Propose(v, cmd).0, SILENT, a');
  }

  // ------------------------------------------------------------------- accepting

  /** What an accepted append leaves: the merged log on disk, and a commit index that did not go back. */
  ghost predicate Appended(v: Server, w: Server, q: AppendRequest) {
    && w.log == Merge(v.log, v.base, q.entries) && w.disk.log == w.log
    && w.base == v.base && w.snap == v.snap && w.disk.snap == v.disk.snap && w.lastApplied == v.lastApplied
    && w.commitIndex == (if q.commit > v.commitIndex then Min(q.commit, LastIndex(w.log, w.base)) else v.commitIndex)
    && w.term == q.term >= v.term && w.disk.term >= v.disk.term
    && (if q.term > v.term then w.role == Follower else w.role == v.role)
  }

  lemma StepUpFacts(v: Server, t: nat)
    requires v.disk.term <= v.term
    ensures var w := StepUp(v, t);
            && Untouched(v, w, t) && w.term == Max(v.term, t) && w.disk.term <= w.term
            && w.role == (if t > v.term then Follower else v.role)
            && (t <= v.term ==> w == v)
  {
  }

  lemma AppendFacts(v: Server, q: AppendRequest)
    requires v.disk.term <= v.term && Known(v, q.leader)
    ensures var (w, r) := AppendEntries(v, q);
            && (r.success ==> v.term <= q.term && Appended(StepUp(v, q.term), w, q) && PrevOk(v, q.prev, q.prevTerm))
            && (!r.success ==> Untouched(v, w, q.term))
  {
  }

  /** The consistency check on the compacted log is agreement of the full log with the leader's. */
  lemma PrevAgrees(a: P.State, n: NodeId, v: Server, q: AppendRequest)
    requires P.Inv(a) && n in a.nodes && SliceView(a, q) && PrevOk(v, q.prev, q.prevTerm)
    requires Compacts(v.log, v.base, a.nodes[n].log)
    ensures P.Has(a.reigns, a.nodes[n].log, q.term, q.prev)
  {
    assert P.NodeOk(a, n) && P.ReignOk(a.reigns, q.term);
    CompactedShape(a.reigns, v.log, v.base, a.nodes[n].log);
    if q.prev > 0 {
      P.LogMatching(a.reigns, a.nodes[n].log, a.reigns[q.term].log, q.prev);
    }
  }

  lemma CommittedInLead(a: P.State, n: NodeId, t: nat, i: nat)
    requires P.Inv(a) && n in a.nodes && t in a.reigns && a.e.members[n].ballot.term == t && i <= a.nodes[n].commit
    ensures P.Has(a.reigns, a.nodes[n].log, t, i)
  {
    assert P.NodeOk(a, n) && P.CommitOk(a, n);
    P.CommittedInReign(a, n, t);
  }

  lemma AcceptedStaysMatched(a: P.State, n: NodeId, t: nat, hi: nat)
    requires P.Inv(a) && n in a.nodes && t in a.reigns && hi < |a.reigns[t].log|
    ensures P.Matched(a.reigns, S.Accepted(a.reigns, a.nodes[n].log, t, hi))
  {
    assert P.NodeOk(a, n) && P.ReignOk(a.reigns, t);
    S.AcceptedIsMatched(a.reigns, a.nodes[n].log, t, hi);
  }

  /** The merged log compacts the accepted one, and the committed prefix survives. */
  lemma AcceptedLog(a: P.State, n: NodeId, v: Server, q: AppendRequest)
    requires P.Inv(a) && n in a.nodes && a.e.members[n].ballot.term == q.term && SliceView(a, q)
             && PrevOk(v, q.prev, q.prevTerm)
    requires Compacts(v.log, v.base, a.nodes[n].log) && v.base <= a.nodes[n].commit
    ensures var f := S.Accepted(a.reigns, a.nodes[n].log, q.term, q.prev + |q.entries|);
            && Compacts(Merge(v.log, v.base, q.entries), v.base, f)
            && P.Matched(a.reigns, f)
            && a.nodes[n].commit < |f|
            && q.prev + |q.entries| < |f|
  {
    hide P.Inv, Compacts, P.Matched, P.ReignsOk;
    var hi := q.prev + |q.entries|;
    ProtocolFacts(a, n);
    PrevAgrees(a, n, v, q);
    CommittedInLead(a, n, q.term, v.base);
    MergeCompacts(a.reigns, a.nodes[n].log, v.log, v.base, q.term, q.prev, q.entries);
    AcceptedStaysMatched(a, n, q.term, hi);
    S.AcceptKeepsCommitted(a, n, hi);
  }

  /** A certificate for a later index covers an earlier one. */
  lemma CertifiedLess(a: P.State, t: nat, i: nat, c: nat, ct: nat, ck: nat)
    requires S.Certified(a, t, i, ct, ck) && c <= i
    ensures S.Certified(a, t, c, ct, ck)
  {
  }

  /** The commit index the follower moves to, and its certificate. */
  lemma CommitLearned(s: State, a: P.State, n: NodeId, v: Server, w: Server, q: AppendRequest)
    returns (ct: nat, ck: nat)
    requires P.Inv(a) && n in a.nodes && a.e.members[n].ballot.term == q.term && SliceView(a, q)
             && PrevOk(v, q.prev, q.prevTerm)
    requires Compacts(v.log, v.base, a.nodes[n].log) && v.base <= v.commitIndex <= a.nodes[n].commit
    requires Appended(v, w, q) && TightClamp(v, q) && CommitView(s.hist, a, q.term, q.commit)
    ensures v.commitIndex <= w.commitIndex
    ensures S.MayAccept(a, n, q.prev + |q.entries|, w.commitIndex, ct, ck)
    ensures w.commitIndex > a.nodes[n].commit ==> Logged(s.hist, a, ct, ck)
  {
    hide P.Inv;
    AcceptedLog(a, n, v, q);
    ProtocolFacts(a, n);
    var f := S.Accepted(a.reigns, a.nodes[n].log, q.term, q.prev + |q.entries|);
    CompactedShape(a.reigns, w.log, w.base, f);
    ct, ck := 0, 0;
    if w.commitIndex > a.nodes[n].commit {
      ct, ck :| S.Certified(a, q.term, q.commit, ct, ck) && Logged(s.hist, a, ct, ck);
      CertifiedLess(a, q.term, q.commit, w.commitIndex, ct, ck);
    }
  }

  /** After an acknowledgement in term t, what node n stores and how far it got. */
  ghost predicate TookOver(h: History, a: P.State, n: NodeId, w: Server, t: nat) {
    && n in a.nodes
    && var y := a.nodes[n];
    && Stored(w, y.log) && w.base <= w.lastApplied <= w.commitIndex <= y.commit && y.ackTerm == t
    && (y.commit > 0 ==> Logged(h, a, y.certTerm, y.certIndex))
  }

  lemma AcceptedView(s: State, s': State, a: P.State, n: NodeId, w: Server, t: nat, hi: nat)
    requires TookOver(s.hist, a, n, w, t) && n in s'.servers && s'.servers[n] == w && w.role != Leader
    requires s.hist.commits <= s'.hist.commits && Accept(n, t, hi) in s'.hist.accepts
    ensures ServerView(s', a, n)
  {
    hide Stored;
  }

  lemma LoggedEvolves(h: History, h': History, a: P.State, a': P.State, t: nat, k: nat)
    requires Evolves(a, a') && h.commits <= h'.commits && Logged(h, a, t, k)
    ensures Logged(h', a', t, k)
  {
    assert S.Kept(a.reigns, a'.reigns, t);
  }

  /** The history after node n acknowledged the reign of t through hi. */
  lemma AcceptHistory(h: History, h': History, a: P.State, a': P.State, n: NodeId, t: nat, hi: nat)
    requires Evolves(a, a') && HistoryView(h, a) && h'.commits == h.commits && h'.applied == h.applied
    requires h'.accepts == h.accepts + {Accept(n, t, hi)} && a'.applied == a.applied && t in a'.e.wins
    requires a'.acked == a.acked[(n, t) := if (n, t) in a.acked && hi <= a.acked[(n, t)] then a.acked[(n, t)] else hi]
    ensures HistoryView(h', a')
  {
    forall p, u | (p, u) in a'.acked
      ensures ((p, u) in a.acked && a'.acked[(p, u)] == a.acked[(p, u)]) || AckLogged(h', a', p, u)
    {
    }
    HistoryEvolves(h, h', a, a');
  }

  /** A term adopted first and the rest done after is the same step. */
  lemma PostTwice(s: State, n: NodeId, v1: Server, w: Server, fx: Effect)
    requires n in s.servers && v1.role != Leader && w.role != Leader
    ensures Post(Post(s, n, v1, SILENT), n, w, fx) == Post(s, n, w, fx)
  {
  }

  lemma AcceptStep(s: State, a: P.State, n: NodeId, v: Server, w: Server, q: AppendRequest) returns (a': P.State)
    requires P.Inv(a) && ServerView(s, a, n) && s.servers[n] == v && n in a.e.members
             && a.e.members[n].ballot.term == v.term == q.term
    requires SliceView(a, q) && CommitView(s.hist, a, q.term, q.commit)
    requires Appended(v, w, q) && PrevOk(v, q.prev, q.prevTerm) && TightClamp(v, q)
    ensures P.Inv(a') && Evolves(a, a') && a'.e == a.e && a'.applied == a.applied && a'.reigns == a.reigns
    ensures var t, hi := q.term, q.prev + |q.entries|;
            a'.acked == a.acked[(n, t) := if (n, t) in a.acked && hi <= a.acked[(n, t)] then a.acked[(n, t)] else hi]
    ensures n in a'.nodes && a'.nodes == a.nodes[n := a'.nodes[n]]
    ensures var x, y := a.nodes[n], a'.nodes[n];
            && Compacts(w.log, w.base, y.log) && P.Agree(x.log, y.log, x.commit)
            && v.commitIndex <= w.commitIndex <= y.commit && y.ackTerm == q.term
            && (y.commit > 0 ==> Logged(s.hist, a', y.certTerm, y.certIndex))
  {
    hide P.Inv, Evolves, Compacts;
    var hi := q.prev + |q.entries|;
    var ct, ck := CommitLearned(s, a, n, v, w, q);
    AcceptedLog(a, n, v, q);
    S.AcceptKeepsCommitted(a, n, hi);
    AcceptEvolves(a, n, hi, w.commitIndex, ct, ck);
    a' := S.Accept(a, n, hi, w.commitIndex, ct, ck);
  }

  /** An accepted append, in the node's own term, is acceptance of the leader's log. */
  lemma TookAppend(s: State, a: P.State, a': P.State, n: NodeId, v: Server, w: Server, q: AppendRequest)
    requires ServerView(s, a, n) && s.servers[n] == v && n in a'.nodes && Appended(v, w, q)
    requires var x, y := a.nodes[n], a'.nodes[n];
             && Compacts(w.log, w.base, y.log) && P.Agree(x.log, y.log, x.commit)
             && v.commitIndex <= w.commitIndex <= y.commit && y.ackTerm == q.term
             && (y.commit > 0 ==> Logged(s.hist, a', y.certTerm, y.certIndex))
    ensures TookOver(s.hist, a', n, w, q.term)
  {
    hide Merge;
  }

  lemma SliceTerm(a: P.State, q: AppendRequest)
    requires SliceView(a, q)
    ensures q.term in a.e.wins
  {
  }

  lemma SimAppend(s: State, a: P.State, n: NodeId, v: Server, w: Server, q: AppendRequest, fx: Effect)
    returns (a': P.State)
    requires LogView(s, a) && P.Inv(a) && n in s.servers && s.servers[n] == v && Mirrors(v, a.e.members[n])
             && w.role != Leader
    requires SliceView(a, q) && CommitView(s.hist, a, q.term, q.commit) && v.term == q.term
    requires Appended(v, w, q) && PrevOk(v, q.prev, q.prevTerm) && TightClamp(v, q)
    requires fx.accepts == {Accept(n, q.term, q.prev + |q.entries|)} && fx.applied == {}
    requires forall m :: m in fx.sent ==> m.AppendResp? && m.q == q && m.peer == n
    ensures a'.e == a.e && LogView(Post(s, n, w, fx), a') && P.Inv(a') && Evolves(a, a')
  {
    hide LogView, P.Inv, Evolves, HistoryView, P.NodeOk, P.CommitOk, Compacts, ServerView, SliceView, CommitView,
      TookOver;
    NodeFacts(s, a, n);
    a' := AcceptStep(s, a, n, v, w, q);
    TookAppend(s, a, a', n, v, w, q);
    SliceTerm(a, q);
    hide Appended, TightClamp, PrevOk, P.Agree;
    var s' := Post(s, n, w, fx);
    AcceptedView(s, s', a', n, w, q.term, q.prev + |q.entries|);
    AcceptHistory(s.hist, s'.hist, a, a', n, q.term, q.prev + |q.entries|);
    SliceViewEvolves(a, a', q);
    PostLogs(s, a, n, w, fx, a');
  }
}
