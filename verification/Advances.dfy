/** The remaining events on the logs: snapshots, commit counting, application and restarts. */
module Advances {
  import opened Types
  import opened Quorums
  import opened Server
  import opened Cluster
  import opened Membership
  import opened Votes
  import opened Offices
  import opened Compaction
  import opened Logs
  import opened Simulation
  import E = Election
  import P = Protocol
  import S = ProtocolSteps

  // ----------------------------------------------------------- installing snapshots

  /** What an installed snapshot leaves. */
  ghost predicate InstalledAt(v: Server, w: Server, t: nat, sn: Snapshot) {
    && w.log == [Entry(sn.index, sn.term, Undecodable)] + KeepAfter(v.log, sn.index) && w.disk.log == w.log
    && w.base == sn.index == w.commitIndex == w.lastApplied && w.snap == Some(sn) == w.disk.snap
    && w.term == t >= v.term && w.disk.term >= v.disk.term
    && (if t > v.term then w.role == Follower else w.role == v.role)
  }

  lemma InstallFacts(v: Server, t: nat, sn: Snapshot)
    requires v.disk.term <= v.term <= t
    ensures InstalledAt(StepUp(v, t), InstallSnapshot(v, t, sn), t, sn)
  {
  }

  lemma InstalledLog(a: P.State, n: NodeId, v: Server, sn: Snapshot)
    requires P.Inv(a) && n in a.nodes && Compacts(v.log, v.base, a.nodes[n].log) && v.commitIndex <= a.nodes[n].commit
    requires n in a.e.members && a.e.members[n].ballot.term == v.term
    requires v.term in a.reigns && sn.index < |a.reigns[v.term].log| && sn.term == a.reigns[v.term].log[sn.index].term
    requires SaneSnapshot(v, sn)
    ensures var f := S.Accepted(a.reigns, a.nodes[n].log, v.term, sn.index);
            && Compacts([Entry(sn.index, sn.term, Undecodable)] + KeepAfter(v.log, sn.index), sn.index, f)
            && f[sn.index].term == sn.term
  {
    hide P.Inv;
    ProtocolFacts(a, n);
    var x := a.nodes[n];
    CompactedShape(a.reigns, v.log, v.base, x.log);
    if sn.index <= v.commitIndex { CommittedInLead(a, n, v.term, sn.index); }
    InstallCompacts(a.reigns, x.log, v.log, v.base, v.term, sn.index);
  }

  lemma InstallStep(s: State, a: P.State, n: NodeId, v: Server, w: Server, sn: Snapshot) returns (a': P.State)
    requires P.Inv(a) && ServerView(s, a, n) && s.servers[n] == v && n in a.e.members
             && a.e.members[n].ballot.term == v.term
    requires v.term in a.reigns && sn.index < |a.reigns[v.term].log| && sn.term == a.reigns[v.term].log[sn.index].term
    requires CommitView(s.hist, a, v.term, sn.index) && SaneSnapshot(v, sn) && InstalledAt(v, w, v.term, sn)
    ensures P.Inv(a') && Evolves(a, a') && a'.e == a.e && a'.applied == a.applied && a'.reigns == a.reigns
    ensures a'.acked == a.acked[(n, v.term) := if (n, v.term) in a.acked
                                && sn.index <= a.acked[(n, v.term)] then a.acked[(n, v.term)] else sn.index]
    ensures n in a'.nodes && a'.nodes == a.nodes[n := a'.nodes[n]]
    ensures var x, y := a.nodes[n], a'.nodes[n];
            && Compacts(w.log, w.base, y.log) && sn.term == y.log[sn.index].term
            && w.commitIndex <= y.commit && y.ackTerm == v.term
            && (y.commit > 0 ==> Logged(s.hist, a', y.certTerm, y.certIndex))
  {
    hide P.Inv, Evolves, Compacts;
    InstalledLog(a, n, v, sn);
    var x := a.nodes[n];
    var ct: nat, ck: nat := 0, 0;
    if sn.index > x.commit {
      ct, ck :| S.Certified(a, v.term, sn.index, ct, ck) && Logged(s.hist, a, ct, ck);
    }
    AcceptEvolves(a, n, sn.index, sn.index, ct, ck);
    a' := S.Accept(a, n, sn.index, sn.index, ct, ck);
  }

  /** Installing the leader's snapshot is acceptance of its log through the snapshot's index. */
  lemma SimInstall(s: State, a: P.State, n: NodeId, v: Server, w: Server, sn: Snapshot, fx: Effect)
    returns (a': P.State)
    requires LogView(s, a) && P.Inv(a) && n in s.servers && s.servers[n] == v && Mirrors(v, a.e.members[n])
             && w.role != Leader
    requires v.term in a.reigns && sn.index < |a.reigns[v.term].log| && sn.term == a.reigns[v.term].log[sn.index].term
    requires CommitView(s.hist, a, v.term, sn.index) && SaneSnapshot(v, sn) && InstalledAt(v, w, v.term, sn)
    requires fx == SILENT.(accepts := {Accept(n, v.term, sn.index)})
    ensures a'.e == a.e && LogView(Post(s, n, w, fx), a') && P.Inv(a') && Evolves(a, a')
  {
    hide LogView, P.Inv, Evolves, HistoryView, P.NodeOk, Compacts;
    NodeFacts(s, a, n);
    a' := InstallStep(s, a, n, v, w, sn);
    var s' := Post(s, n, w, fx);
    assert TookOver(s.hist, a', n, w, v.term);
    hide TookOver, ServerView;
    AcceptedView(s, s', a', n, w, v.term, sn.index);
    AcceptHistory(s.hist, s'.hist, a, a', n, v.term, sn.index);
    PostLogs(s, a, n, w, fx, a');
  }

  /** Creating a snapshot changes what is stored, not what it stands for. */
  lemma SimSnap(s: State, a: P.State, n: NodeId, v: Server, data: Store)
    requires LogView(s, a) && P.Inv(a) && n in s.servers && s.servers[n] == v
    ensures LogView(Post(s, n, CreateSnapshot(v, data), SILENT), a)
  {
    hide LogView, P.Inv, HistoryView;
    NodeFacts(s, a, n);
    var x := a.nodes[n];
    CompactedShape(a.reigns, v.log, v.base, x.log);
    var e := EntryAt(v.log, v.base, v.lastApplied).value;
    CutCompacts(v.log, v.base, x.log, v.lastApplied, e.term);
    SameEvolves(a);
    var w := CreateSnapshot(v, data);
    assert Stored(w, x.log);
    SnappedView(s, a, n, v, w);
    assert Commits(v, w) == {};
    PostLogsSame(s, a, n, w, SILENT);
  }

  lemma SnappedView(s: State, a: P.State, n: NodeId, v: Server, w: Server)
    requires ServerView(s, a, n) && s.servers[n] == v && Stored(w, a.nodes[n].log) && w.base == v.lastApplied
    requires w.lastApplied == v.lastApplied && w.commitIndex == v.commitIndex && w.disk.term == v.disk.term
    requires w.role == v.role && w.term == v.term && w.peers == v.peers && w.nextIndex == v.nextIndex
             && w.matchIndex == v.matchIndex
    ensures ServerView(Post(s, n, w, SILENT), a, n)
  {
  }

  /** The protocol state stays; only one server's view changes. */
  lemma PostLogsSame(s: State, a: P.State, n: NodeId, w: Server, fx: Effect)
    requires LogView(s, a) && P.Inv(a) && n in s.servers && ServerView(Post(s, n, w, fx), a, n)
    requires Commits(s.servers[n], w) == {} && fx.applied == {} && fx.accepts == {} && fx.sent == {}
    ensures LogView(Post(s, n, w, fx), a)
  {
    hide LogView, P.Inv, ServerView;
    NodeFacts(s, a, n);
    SameEvolves(a);
    HistoryEvolves(s.hist, Post(s, n, w, fx).hist, a, a);
    PostLogs(s, a, n, w, fx, a);
  }

  // ------------------------------------------------------------------- restarting

  /** What a restart of a soundly stored node rebuilds. */
  lemma RebootFacts(config: map<NodeId, seq<NodeId>>, n: NodeId, v: Server, full: seq<Entry>)
    requires ServerStatic(config, n, v) && Stored(v, full) && full[0] == ROOT
    ensures var w := Boot(n, config[n], v.disk);
            && w.log == v.log && w.base == v.base && w.snap == v.snap && w.disk == v.disk
            && w.commitIndex == w.lastApplied == v.base && w.role == Follower
  {
    BootLoads(n, config[n], v.disk);
    var es := if |v.disk.log| == 0 then [ROOT] else v.disk.log;
    assert es == v.log;
  }

  lemma SimCrash(s: State, a: P.State, n: NodeId, v: Server, w: Server)
    requires LogView(s, a) && P.Inv(a) && n in s.servers && s.servers[n] == v && Mirrors(v, a.e.members[n])
    requires w.log == v.log && w.base == v.base && w.snap == v.snap && w.disk == v.disk
    requires w.commitIndex == w.lastApplied == v.base && w.role == Follower
    requires DurableAcks(s, n)
    ensures LogView(Post(s, n, w, SILENT), S.Restart(a, n)) && P.Inv(S.Restart(a, n)) && Evolves(a, S.Restart(a, n))
  {
    hide LogView, P.Inv, Evolves, HistoryView;
    NodeFacts(s, a, n);
    RestartEvolves(a, n);
    var a', s' := S.Restart(a, n), Post(s, n, w, SILENT);
    if a.nodes[n].commit > 0 { LoggedEvolves(s.hist, s'.hist, a, a', a.nodes[n].certTerm, a.nodes[n].certIndex); }
    assert ServerView(s', a', n);
    HistoryEvolves(s.hist, s'.hist, a, a');
    PostLogs(s, a, n, w, SILENT, a');
  }

  // ------------------------------------------------------------------- committing

  /** The nodes a leader counts for index i: itself and the peers it believes hold i. */
  ghost function Counted(n: NodeId, v: Server, i: nat): set<NodeId> {
    {n} + Elems(Believed(v.peers, v.matchIndex, i))
  }

  lemma {:induction false} BelievedFacts(peers: seq<NodeId>, m: map<NodeId, nat>, i: nat)
    requires NoRepeats(peers)
    ensures NoRepeats(Believed(peers, m, i))
    ensures forall p :: p in Believed(peers, m, i) ==> p in peers && Get(m, p) >= i
  {
    if peers != [] {
      var front, x := peers[..|peers| - 1], peers[|peers| - 1];
      BelievedFacts(front, m, i);
      assert x !in front;
    }
  }

  /** The count in the commit loop is the number of distinct nodes counted. */
  lemma HoldersAreNodes(n: NodeId, v: Server, i: nat)
    requires NoRepeats(v.peers) && n !in v.peers
    ensures |Counted(n, v, i)| == Holders(v, i)
    ensures forall p :: p in Counted(n, v, i) && p != n ==> p in v.peers && Get(v.matchIndex, p) >= i
  {
    BelievedFacts(v.peers, v.matchIndex, i);
    ElemsSize(Believed(v.peers, v.matchIndex, i));
  }

  lemma {:induction false} ScanFinds(v: Server, k: nat)
    ensures var i := CommitScan(v, k); i == v.commitIndex || (v.commitIndex < i <= k && Committable(v, i))
  {
    if k > v.commitIndex { ScanFinds(v, k - 1); }
  }

  /** What a leader counts a majority for is chosen: the peers counted really acknowledged it in this term. */
  lemma CountIsChosen(s: State, a: P.State, n: NodeId, v: Server, i: nat)
    requires Static(s) && n in s.servers && s.servers[n].peers == v.peers && v.term == s.servers[n].term
    requires s.servers.Keys == a.nodes.Keys && P.NodeOk(a, n) && a.e.members[n].role == Leader
             && a.e.members[n].ballot.term == v.term
    requires LeaderView(a, n, v) && v.role == Leader && P.ReignOk(a.reigns, v.term)
             && Compacts(v.log, v.base, a.nodes[n].log)
    requires Committable(v, i) && v.commitIndex < i && v.base <= v.commitIndex <= a.nodes[n].commit
    ensures i < |a.nodes[n].log| && a.nodes[n].commit < i && P.Chosen(a, v.term, i)
    ensures EntryAt(v.log, v.base, i) == Some(a.nodes[n].log[i])
  {
    var x := a.nodes[n];
    assert ServerStatic(s.config, n, s.servers[n]) && ListsOthers(s.config, n);
    QuorumIsMajority(s, n);
    assert x.log[i] == v.log[i - v.base];
    assert n !in v.peers by { assert n in v.peers ==> n in Elems(v.peers); }
    HoldersAreNodes(n, v, i);
    assert Counted(n, v, i) <= P.Ackers(a, v.term, i) by {
      forall p | p in Counted(n, v, i) ensures p in P.Ackers(a, v.term, i) {
        if p != n { assert p in Elems(s.config[n]); }
      }
    }
    SubsetSize(Counted(n, v, i), P.Ackers(a, v.term, i));
  }

  /** Peer indices changed and nothing else. */
  ghost predicate Reindexed(v: Server, v1: Server) {
    && SameLogs(v, v1) && v1.disk == v.disk && v1.role == v.role && v1.term == v.term && v1.peers == v.peers
  }

  lemma SimReindex(s: State, a: P.State, n: NodeId, v: Server, w: Server)
    requires LogView(s, a) && P.Inv(a) && n in s.servers && s.servers[n] == v && Reindexed(v, w) && n in a.nodes
             && LeaderView(a, n, w)
    ensures LogView(Post(s, n, w, SILENT), a)
  {
    hide LogView, P.Inv, HistoryView;
    NodeFacts(s, a, n);
    assert ServerView(Post(s, n, w, SILENT), a, n);
    PostLogsSame(s, a, n, w, SILENT);
  }

  lemma CommittedView(s: State, a: P.State, a': P.State, n: NodeId, v: Server, w: Server, i: nat)
    requires ServerView(s, a, n) && s.servers[n] == v && n in a'.nodes && a'.reigns == a.reigns && a'.acked == a.acked
    requires a'.nodes[n] == a.nodes[n].(commit := i, certTerm := v.term, certIndex := i) && a.nodes[n].commit < i
    requires v.role == Leader && LeaderView(a, n, w.(commitIndex := v.commitIndex))
             && Reindexed(v, w.(commitIndex := v.commitIndex)) && w.commitIndex == i
    requires v.term in a.reigns && i < |a.reigns[v.term].log|
             && EntryAt(v.log, v.base, i) == Some(a.reigns[v.term].log[i])
    ensures ServerView(Post(s, n, w, SILENT), a', n)
  {
    forall p | p in w.peers ensures MatchOk(a', n, w.term, p, Get(w.matchIndex, p)) {
      assert MatchOk(a, n, w.term, p, Get(w.matchIndex, p));
    }
  }

  lemma CommitHistory(h: History, h': History, a: P.State, a': P.State, c: Commit)
    requires Evolves(a, a') && HistoryView(h, a) && h'.commits == h.commits + {c} && h'.applied == h.applied
             && h'.accepts == h.accepts
    requires a'.applied == a.applied && a'.acked == a.acked && a'.e == a.e && CommitLogged(a, c)
    ensures HistoryView(h', a')
  {
    forall p, t ensures AckLogged(h', a', p, t) { assert AckLogged(h, a, p, t); }
    forall x | x in h'.commits ensures CommitLogged(a', x) {
      assert CommitLogged(a, x) && S.Kept(a.reigns, a'.reigns, x.term);
      S.ChosenGrows(a, a', x.term, x.index);
    }
  }

  /** A leader commits what it counted. */
  lemma SimCommit(s: State, a: P.State, n: NodeId, v: Server, w: Server, i: nat) returns (a': P.State)
    requires LogView(s, a) && P.Inv(a) && n in s.servers && s.servers[n] == v && v.role == Leader == a.e.members[n].role
    requires n in a.nodes && a.e.members[n].ballot.term == v.term && a.nodes[n].commit < i < |a.nodes[n].log|
             && P.Chosen(a, v.term, i)
    requires Reindexed(v, w.(commitIndex := v.commitIndex)) && LeaderView(a, n, w.(commitIndex := v.commitIndex))
             && w.commitIndex == i
    requires EntryAt(v.log, v.base, i) == Some(a.nodes[n].log[i]) && v.commitIndex < i
    ensures a'.e == a.e && LogView(Post(s, n, w, SILENT), a') && P.Inv(a') && Evolves(a, a')
  {
    hide LogView, P.Inv, HistoryView, Evolves;
    NodeFacts(s, a, n);
    AdvanceEvolves(a, n, i);
    a' := S.AdvanceCommit(a, n, i);
    CommittedView(s, a, a', n, v, w, i);
    CommitHistory(s.hist, Post(s, n, w, SILENT).hist, a, a', Commit(v.term, i, a.nodes[n].log[i]));
    PostLogs(s, a, n, w, SILENT, a');
  }

  /** The commit loop after any sound change of the peer indices. */
  lemma SimUpdateCommit(s: State, a: P.State, n: NodeId, v: Server, v1: Server) returns (a': P.State)
    requires Static(s) && LogView(s, a) && P.Inv(a) && n in s.servers && s.servers[n] == v && Mirrors(v, a.e.members[n])
    requires a.e.members[n].role == v.role && Reindexed(v, v1) && n in a.nodes && LeaderView(a, n, v1)
    ensures a'.e == a.e && LogView(Post(s, n, UpdateCommit(v1), SILENT), a') && P.Inv(a') && Evolves(a, a')
  {
    hide LogView, P.Inv, HistoryView, Static;
    NodeFacts(s, a, n);
    ScanFinds(v1, Last(v1));
    var i := CommitScan(v1, Last(v1));
    var w := UpdateCommit(v1);
    if v.role != Leader || i == v1.commitIndex {
      a' := a;
      SameEvolves(a);
      assert w == v1;
      SimReindex(s, a, n, v, v1);
    } else {
      ReignFacts(a, v.term);
      CountIsChosen(s, a, n, v1, i);
      assert w.(commitIndex := v.commitIndex) == v1;
      a' := SimCommit(s, a, n, v, w, i);
    }
  }

  lemma ReignFacts(a: P.State, t: nat)
    requires P.Inv(a) && t in a.reigns
    ensures P.ReignOk(a.reigns, t)
  {
  }

  // ------------------------------------------------------------ replies and applying

  /** Success raises a peer's index to what it acknowledged; failure lowers the next index. */
  lemma ReplyIndices(a: P.State, n: NodeId, v: Server, peer: NodeId, q: AppendRequest, success: bool)
    requires n in a.nodes && LeaderView(a, n, v) && SliceView(a, q)
             && (v.role == Leader ==> a.nodes[n].log == a.reigns[v.term].log)
    requires success ==> P.Acked(a, peer, q.term, q.prev + |q.entries|)
    requires success && v.role == Leader ==> v.term == q.term
    ensures LeaderView(a, n, v) && (success ==> LeaderView(a, n, Acknowledged(v, peer, q.prev + |q.entries|)))
    ensures Get(v.nextIndex, peer) > 0 ==>
              LeaderView(a, n, v.(nextIndex := v.nextIndex[peer := Get(v.nextIndex, peer) - 1]))
  {
  }

  lemma LastSent(a: P.State, q: AppendRequest)
    requires P.Inv(a) && SliceView(a, q) && |q.entries| > 0
    ensures q.entries[|q.entries| - 1].index == q.prev + |q.entries|
  {
    var hi := q.prev + |q.entries|;
    assert P.ReignOk(a.reigns, q.term) && P.Rooted(a.reigns, a.reigns[q.term].log, hi);
  }

  function Acknowledged(v: Server, peer: NodeId, hi: nat): Server {
    v.(matchIndex := v.matchIndex[peer := hi], nextIndex := v.nextIndex[peer := hi + 1])
  }

  /** A reply counted in the leader's own term, case by case. */
  lemma ReplyIs(v: Server, peer: NodeId, q: AppendRequest, r: AppendReply)
    requires r.term <= v.term && (|q.entries| > 0 ==> q.entries[|q.entries| - 1].index == q.prev + |q.entries|)
    ensures var w := HandleAppendReply(v, peer, q, r);
            if r.success && peer in v.peers
            then w == UpdateCommit(if |q.entries| > 0
                                   || q.prev >= v.base then Acknowledged(v, peer, q.prev + |q.entries|) else v)
            else w == v || (Get(v.nextIndex, peer) > 0
                            && w == v.(nextIndex := v.nextIndex[peer := Get(v.nextIndex, peer) - 1]))
  {
    hide UpdateCommit;
  }

  lemma SimReply(s: State, a: P.State, m: Message, n: NodeId, v: Server) returns (a': P.State)
    requires Static(s) && LogView(s, a) && P.Inv(a) && m.AppendResp? && MessageView(s.hist, a, m) && n == m.q.leader
    requires n in s.servers && s.servers[n] == v && n in a.e.members && Mirrors(v, a.e.members[n])
             && a.e.members[n].role == v.role
    requires FreshAck(v, m) && m.reply.term <= v.term
    ensures a'.e == a.e && LogView(Post(s, n, HandleAppendReply(v, m.peer, m.q, m.reply), SILENT), a') && P.Inv(a')
            && Evolves(a, a')
  {
    hide LogView, P.Inv, HistoryView, Static, SliceView, HandleAppendReply, UpdateCommit, Stored, Progress, P.CommitOk;
    NodeFacts(s, a, n);
    var q, w := m.q, HandleAppendReply(v, m.peer, m.q, m.reply);
    ReplyIndices(a, n, v, m.peer, q, m.reply.success);
    if |q.entries| > 0 { LastSent(a, q); }
    ReplyIs(v, m.peer, q, m.reply);
    hide LeaderView, ServerView, P.NodeOk, E.RoleOk;
    if m.reply.success && m.peer in v.peers {
      a' := SimUpdateCommit(s, a, n, v, if |q.entries| > 0 || q.prev >= v.base
                                        then Acknowledged(v, m.peer, q.prev + |q.entries|) else v);
    } else {
      a' := a;
      SameEvolves(a);
      SimReindex(s, a, n, v, w);
    }
  }

  /** A snapshot call that returned, or failed, claims only what is committed. */
  lemma SimSnapshotSent(s: State, a: P.State, m: Message, n: NodeId, v: Server)
    requires LogView(s, a) && P.Inv(a) && m.SnapReq? && MessageView(s.hist, a, m) && n == m.sender && n in s.servers
             && s.servers[n] == v
    ensures LogView(Post(s, n, SnapshotSent(v, m.to, m.sn.index), SILENT), a)
  {
    hide LogView, P.Inv, HistoryView;
    NodeFacts(s, a, n);
    SimReindex(s, a, n, v, SnapshotSent(v, m.to, m.sn.index));
  }

  lemma ApplyHistory(h: History, h': History, a: P.State, a': P.State, x: P.Applied)
    requires HistoryView(h, a) && h' == h.(applied := h.applied + {x}) && a' == a.(applied := a.applied + {x})
    ensures HistoryView(h', a')
  {
    forall p, t ensures AckLogged(h', a', p, t) { assert AckLogged(h, a, p, t); }
    forall c | c in h'.commits ensures CommitLogged(a', c) {
      assert CommitLogged(a, c);
      assert P.Ackers(a', c.term, c.index) == P.Ackers(a, c.term, c.index);
    }
  }

  lemma ApplyEvolves(a: P.State, n: NodeId, i: nat)
    requires P.Inv(a) && n in a.nodes && 0 < i <= a.nodes[n].commit
    ensures i < |a.nodes[n].log| && Evolves(a, S.Apply(a, n, i)) && P.Inv(S.Apply(a, n, i))
  {
    S.ApplyKeeps(a, n, i);
    SameEvolves(a);
    forall k | k in a.nodes ensures Evolved(a, S.Apply(a, n, i), k) { assert Evolved(a, a, k); }
  }

  /** Only committed entries are applied, each as the full log has it. */
  lemma SimApply(s: State, a: P.State, n: NodeId, v: Server) returns (a': P.State)
    requires Static(s) && LogView(s, a) && P.Inv(a) && n in s.servers && s.servers[n] == v && CanApply(v)
    ensures a'.e == a.e && LogView(ApplyOneNext(s, n), a') && P.Inv(a') && Evolves(a, a')
  {
    hide LogView, P.Inv, HistoryView, Evolves;
    NodeFacts(s, a, n);
    var i := v.lastApplied + 1;
    ApplyEvolves(a, n, i);
    a' := S.Apply(a, n, i);
    assert ServerStatic(s.config, n, v);
    var (w, e) := ApplyNext(v);
    assert e == a.nodes[n].log[i];
    var fx := SILENT.(applied := {P.Applied(n, i, e)});
    var s' := Post(s, n, w, fx);
    ApplyHistory(s.hist, s'.hist, a, a', P.Applied(n, i, e));
    assert ServerView(s', a', n);
    PostLogs(s, a, n, w, fx, a');
  }
}
