/** How the cluster's logs, indices and messages stand for those of the uncompacted protocol. */
module Logs {
  import opened Types
  import opened Server
  import opened Cluster
  import opened Compaction
  import P = Protocol
  import S = ProtocolSteps

  // ------------------------------------------------------------- one server

  /** The log in memory and on disk, and the snapshot, stand for `full`. */
  ghost predicate Stored(v: Server, full: seq<Entry>) {
    && Compacts(v.log, v.base, full)
    && (v.disk.log == v.log || (v.disk.log == [] && v.log == [ROOT] && v.base == 0))
    && v.disk.snap == v.snap
    && match v.snap
       case None => v.base == 0
       case Some(sn) => sn.index == v.base && sn.term == full[v.base].term
  }

  ghost predicate Progress(v: Server, x: P.Node) {
    v.base <= v.lastApplied <= v.commitIndex <= x.commit
  }

  /** What a leader believes of a peer is already committed, or the peer really acknowledged it in this term. */
  ghost predicate MatchOk(a: P.State, n: NodeId, t: nat, p: NodeId, i: nat)
    requires n in a.nodes
  {
    i <= a.nodes[n].commit || P.Acked(a, p, t, i)
  }

  ghost predicate LeaderView(a: P.State, n: NodeId, v: Server)
    requires n in a.nodes
  {
    v.role == Leader ==>
      && v.term in a.reigns
      && (a.nodes[n].commit == v.commitIndex || a.nodes[n].commit < a.reigns[v.term].start)
      && forall p :: p in v.peers ==>
           Get(v.nextIndex, p) <= |a.nodes[n].log| && MatchOk(a, n, v.term, p, Get(v.matchIndex, p))
  }

  /** The last term acknowledged is on disk, or acknowledged in the history. */
  ghost predicate AckView(h: History, n: NodeId, v: Server, x: P.Node) {
    x.ackTerm <= v.disk.term || exists k :: Accept(n, x.ackTerm, k) in h.accepts
  }

  ghost predicate Logged(h: History, a: P.State, t: nat, k: nat) {
    t in a.reigns && k < |a.reigns[t].log| && Commit(t, k, a.reigns[t].log[k]) in h.commits
  }

  ghost predicate ServerView(s: State, a: P.State, n: NodeId) {
    && n in s.servers
    && n in a.nodes
    && var v, x := s.servers[n], a.nodes[n];
    && Stored(v, x.log)
    && Progress(v, x)
    && LeaderView(a, n, v)
    && AckView(s.hist, n, v, x)
    && (x.commit > 0 ==> Logged(s.hist, a, x.certTerm, x.certIndex))
  }

  // --------------------------------------------------------------- messages

  /** Index i of the reign of term t is committed. */
  ghost predicate CommitView(h: History, a: P.State, t: nat, i: nat) {
    i == 0 || exists ct, ck :: S.Certified(a, t, i, ct, ck) && Logged(h, a, ct, ck)
  }

  ghost predicate SliceView(a: P.State, q: AppendRequest) {
    && Slice(a.reigns, q.term, q.prev, q.entries)
    && q.term in a.e.wins
    && a.e.wins[q.term].leader == q.leader
    && (q.prev > 0 ==> q.prevTerm == a.reigns[q.term].log[q.prev].term)
  }

  /** The log a candidate asks with, as long as it can still win. */
  ghost predicate AskView(a: P.State, c: NodeId, t: nat, lastIndex: nat, lastTerm: nat) {
    && c in a.nodes
    && c in a.e.members
    && var m := a.e.members[c];
    && t <= m.disk.term
    && (m.ballot.term == t && m.role == Candidate && t !in a.e.wins ==>
          lastIndex == |a.nodes[c].log| - 1 && lastTerm == LastTerm(a.nodes[c].log))
  }

  ghost predicate MessageView(h: History, a: P.State, m: Message) {
    match m
    case VoteReq(c, _, t, li, lt) => AskView(a, c, t, li, lt)
    case VoteResp(_, _, _, _) => true
    case AppendReq(_, q) => SliceView(a, q) && CommitView(h, a, q.term, q.commit)
    case AppendResp(p, q, r) => SliceView(a, q) && (r.success ==> P.Acked(a, p, q.term, q.prev + |q.entries|))
    case SnapReq(n, _, t, sn) =>
      && t in a.reigns && t in a.e.wins && a.e.wins[t].leader == n
      && sn.index < |a.reigns[t].log| && sn.term == a.reigns[t].log[sn.index].term
      && CommitView(h, a, t, sn.index)
      && n in a.nodes && sn.index <= a.nodes[n].commit
  }

  // ---------------------------------------------------------------- history

  ghost predicate AckLogged(h: History, a: P.State, p: NodeId, t: nat) {
    (p, t) in a.acked ==> t in a.e.wins && (a.e.wins[t].leader == p || Accept(p, t, a.acked[(p, t)]) in h.accepts)
  }

  ghost predicate CommitLogged(a: P.State, c: Commit) {
    P.Chosen(a, c.term, c.index) && a.reigns[c.term].log[c.index] == c.entry
  }

  ghost predicate HistoryView(h: History, a: P.State) {
    && (forall p, t {:trigger AckLogged(h, a, p, t)} :: AckLogged(h, a, p, t))
    && (forall c {:trigger CommitLogged(a, c)} :: c in h.commits ==> CommitLogged(a, c))
    && h.applied == a.applied
  }

  ghost predicate LogView(s: State, a: P.State) {
    && s.servers.Keys == a.nodes.Keys
    && (forall n {:trigger ServerView(s, a, n)} :: n in s.servers ==> ServerView(s, a, n))
    && (forall m {:trigger MessageView(s.hist, a, m)} :: m in s.net ==> MessageView(s.hist, a, m))
    && HistoryView(s.hist, a)
  }

  // -------------------------------------------------------------- evolution

  /** A node's commit and disk term do not go back, and a candidate that can still win keeps its log. */
  ghost predicate Evolved(a: P.State, a': P.State, n: NodeId) {
    && n in a.nodes && n in a'.nodes && n in a.e.members && n in a'.e.members
    && a.nodes[n].commit <= a'.nodes[n].commit
    && a.e.members[n].disk.term <= a'.e.members[n].disk.term
    && var m, m' := a.e.members[n], a'.e.members[n];
    m'.role == Candidate && m'.ballot.term !in a'.e.wins && m'.ballot.term <= m.disk.term ==>
      m.role == Candidate && m.ballot.term == m'.ballot.term && a'.nodes[n].log == a.nodes[n].log
  }

  ghost predicate Evolves(a: P.State, a': P.State) {
    && S.Grow(a.reigns, a'.reigns)
    && S.AcksGrow(a, a')
    && a'.nodes.Keys == a.nodes.Keys
    && (forall t :: t in a.e.wins ==> t in a'.e.wins && a'.e.wins[t] == a.e.wins[t])
    && (forall n {:trigger Evolved(a, a', n)} :: n in a.nodes ==> Evolved(a, a', n))
  }

  lemma CommitViewEvolves(h: History, h': History, a: P.State, a': P.State, t: nat, i: nat)
    requires Evolves(a, a') && h.commits <= h'.commits && CommitView(h, a, t, i)
    ensures CommitView(h', a', t, i)
  {
    if i > 0 {
      var ct, ck :| S.Certified(a, t, i, ct, ck) && Logged(h, a, ct, ck);
      S.ChosenGrows(a, a', ct, ck);
      assert S.Kept(a.reigns, a'.reigns, t) && S.Kept(a.reigns, a'.reigns, ct);
      assert S.Certified(a', t, i, ct, ck) && Logged(h', a', ct, ck);
    }
  }

  lemma SliceViewEvolves(a: P.State, a': P.State, q: AppendRequest)
    requires Evolves(a, a') && SliceView(a, q)
    ensures SliceView(a', q)
  {
    assert S.Kept(a.reigns, a'.reigns, q.term);
  }

  lemma MessageEvolves(h: History, h': History, a: P.State, a': P.State, m: Message)
    requires Evolves(a, a') && h.commits <= h'.commits && MessageView(h, a, m)
    ensures MessageView(h', a', m)
  {
    match m
    case VoteReq(c, _, t, _, _) => assert Evolved(a, a', c);
    case VoteResp(_, _, _, _) =>
    case AppendReq(_, q) =>
      SliceViewEvolves(a, a', q);
      CommitViewEvolves(h, h', a, a', q.term, q.commit);
    case AppendResp(_, q, _) => SliceViewEvolves(a, a', q);
    case SnapReq(n, _, t, sn) =>
      assert S.Kept(a.reigns, a'.reigns, t) && Evolved(a, a', n);
      CommitViewEvolves(h, h', a, a', t, sn.index);
  }

  /** A server the step does not touch keeps its view. */
  lemma OtherServerView(s: State, s': State, a: P.State, a': P.State, k: NodeId)
    requires Evolves(a, a') && ServerView(s, a, k) && k in s'.servers && s'.servers[k] == s.servers[k]
    requires k in a'.nodes && a'.nodes[k] == a.nodes[k]
    requires s.hist.commits <= s'.hist.commits && s.hist.accepts <= s'.hist.accepts
    ensures ServerView(s', a', k)
  {
    var v := s.servers[k];
    if v.role == Leader { assert S.Kept(a.reigns, a'.reigns, v.term); }
    if a.nodes[k].commit > 0 { assert S.Kept(a.reigns, a'.reigns, a.nodes[k].certTerm); }
    assert AckView(s'.hist, k, v, a.nodes[k]);
  }

  /** One node's step carries the whole view, if its own view, its messages and its history entries do. */
  lemma PostLogs(s: State, a: P.State, n: NodeId, w: Server, fx: Effect, a': P.State)
    requires LogView(s, a) && n in s.servers && Evolves(a, a')
    requires forall k :: k in a.nodes && k != n ==> a'.nodes[k] == a.nodes[k]
    requires ServerView(Post(s, n, w, fx), a', n)
    requires forall m :: m in fx.sent ==> MessageView(Post(s, n, w, fx).hist, a', m)
    requires HistoryView(Post(s, n, w, fx).hist, a')
    ensures LogView(Post(s, n, w, fx), a')
  {
    var s' := Post(s, n, w, fx);
    forall k | k in s'.servers ensures ServerView(s', a', k) {
      if k != n {
        assert ServerView(s, a, k);
        OtherServerView(s, s', a, a', k);
      }
    }
    forall m | m in s'.net ensures MessageView(s'.hist, a', m) {
      if m in s.net {
        assert MessageView(s.hist, a, m);
        MessageEvolves(s.hist, s'.hist, a, a', m);
      }
    }
  }

  /** The history entries of a step that neither counts a commit nor applies. */
  lemma HistoryEvolves(h: History, h': History, a: P.State, a': P.State)
    requires Evolves(a, a') && HistoryView(h, a) && h'.commits == h.commits && h'.applied == h.applied
             && h.accepts <= h'.accepts
    requires a'.applied == a.applied
    requires forall p, t :: (p, t) in a'.acked ==>
               ((p, t) in a.acked && a'.acked[(p, t)] == a.acked[(p, t)]) || AckLogged(h', a', p, t)
    ensures HistoryView(h', a')
  {
    forall p, t ensures AckLogged(h', a', p, t) {
      assert AckLogged(h, a, p, t);
    }
    forall c | c in h'.commits ensures CommitLogged(a', c) {
      assert CommitLogged(a, c) && S.Kept(a.reigns, a'.reigns, c.term);
      S.ChosenGrows(a, a', c.term, c.index);
    }
  }
}
