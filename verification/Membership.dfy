/** With no configuration change proposed, every node keeps the peer list it was started with. */
module Membership {
  import opened Types
  import opened Server
  import opened Cluster
  import E = Election
  import P = Protocol

  ghost predicate NoConfig(log: seq<Entry>) {
    forall k :: 0 <= k < |log| ==> !log[k].data.ConfigChange?
  }

  ghost predicate ServerStatic(config: map<NodeId, seq<NodeId>>, n: NodeId, v: Server) {
    && n in config
    && v.id == n
    && v.peers == config[n]
    && !v.removed
    && (v.disk.peers == [] || v.disk.peers == config[n])
    && NoConfig(v.log)
    && NoConfig(v.disk.log)
  }

  ghost predicate MessageStatic(keys: set<NodeId>, m: Message) {
    match m
    case VoteReq(c, to, _, _, _) => c in keys && to in keys && c != to
    case VoteResp(p, c, _, _) => p in keys && c in keys && p != c
    case AppendReq(to, q) => q.leader in keys && to in keys && to != q.leader && NoConfig(q.entries)
    case AppendResp(p, q, _) => q.leader in keys && p in keys && p != q.leader
    case SnapReq(n, to, _, _) => n in keys && to in keys && n != to
  }

  ghost predicate Static(s: State) {
    && FullMesh(s.config)
    && s.servers.Keys == s.config.Keys
    && (forall n {:trigger ServerStatic(s.config, n, s.servers[n])} :: n in s.servers ==>
        ServerStatic(s.config, n, s.servers[n]))
    && (forall m {:trigger MessageStatic(s.config.Keys, m)} :: m in s.net ==> MessageStatic(s.config.Keys, m))
    && (forall l :: l in s.campaigns ==> l.node in s.servers)
  }

  lemma {:induction false} MergeNoConfig(log: seq<Entry>, base: nat, es: seq<Entry>)
    requires NoConfig(log) && NoConfig(es)
    ensures NoConfig(Merge(log, base, es))
  {
    if es != [] {
      MergeNoConfig(log, base, es[..|es| - 1]);
    }
  }

  lemma {:induction false} KeepAfterNoConfig(log: seq<Entry>, i: nat)
    requires NoConfig(log)
    ensures NoConfig(KeepAfter(log, i))
  {
    if log != [] {
      KeepAfterNoConfig(log[..|log| - 1], i);
    }
  }

  /** Replaying a log without configuration entries changes nothing. */
  lemma {:induction false} ReplayNothing(s: Server, k: nat)
    requires NoConfig(s.log)
    ensures Replay(s, k) == s
  {
    if k > 0 {
      ReplayNothing(s, k - 1);
    }
  }

  /** A restart reads back the disk and nothing else. */
  lemma BootLoads(id: NodeId, initial: seq<NodeId>, d: Disk)
    requires NoConfig(d.log)
    ensures Boot(id, initial, d) == Started(Loaded(id, initial, d))
  {
    var s := Loaded(id, initial, d);
    assert NoConfig(s.log);
    ReplayNothing(s, if Last(s) > s.base then Last(s) - s.base else 0);
  }

  lemma BootStatic(config: map<NodeId, seq<NodeId>>, n: NodeId, d: Disk)
    requires n in config && (d.peers == [] || d.peers == config[n]) && NoConfig(d.log)
    ensures ServerStatic(config, n, Boot(n, config[n], d))
  {
    BootLoads(n, config[n], d);
  }

  lemma InitStatic(s: State)
    requires Init(s)
    ensures Static(s)
  {
    forall n | n in s.servers ensures ServerStatic(s.config, n, s.servers[n]) {
      BootStatic(s.config, n, EMPTY_DISK);
    }
  }

  lemma CompactStatic(config: map<NodeId, seq<NodeId>>, n: NodeId, v: Server, sn: Snapshot)
    requires ServerStatic(config, n, v)
    ensures ServerStatic(config, n, Compact(v, sn))
  {
    KeepAfterNoConfig(v.log, sn.index);
  }

  lemma AppendStatic(config: map<NodeId, seq<NodeId>>, n: NodeId, v: Server, q: AppendRequest)
    requires ServerStatic(config, n, v) && NoConfig(q.entries)
    ensures ServerStatic(config, n, AppendEntries(v, q).0)
  {
    MergeNoConfig(v.log, v.base, q.entries);
  }

  /** A node sends only to its peers, so never to itself. */
  lemma PeerIsOther(s: State, n: NodeId, p: NodeId)
    requires Static(s) && n in s.servers && p in s.servers[n].peers
    ensures n in s.config && p in s.config && n != p
  {
    assert ServerStatic(s.config, n, s.servers[n]);
    assert ListsOthers(s.config, n) && p in Elems(s.config[n]);
  }

  /** A node that keeps identity, peers and logs stays sound. */
  lemma SameStatic(config: map<NodeId, seq<NodeId>>, n: NodeId, v: Server, w: Server)
    requires ServerStatic(config, n, v)
    requires w.id == v.id && w.peers == v.peers && !w.removed && w.log == v.log
    requires w.disk.log == v.disk.log || w.disk.log == v.log
    requires w.disk.peers == v.disk.peers || w.disk.peers == v.peers
    ensures ServerStatic(config, n, w)
  {
  }

  lemma PostStatic(s: State, n: NodeId, w: Server, fx: Effect)
    requires Static(s) && n in s.servers && ServerStatic(s.config, n, w)
    requires forall m :: m in fx.sent ==> MessageStatic(s.config.Keys, m)
    requires forall l :: l in fx.campaigns ==> l.node == n
    ensures Static(Post(s, n, w, fx))
  {
    var s' := Post(s, n, w, fx);
    forall k | k in s'.servers ensures ServerStatic(s'.config, k, s'.servers[k]) {
      if k != n { assert ServerStatic(s.config, k, s.servers[k]); }
    }
    forall x | x in s'.net ensures MessageStatic(s'.config.Keys, x) {
      if x in s.net { assert MessageStatic(s.config.Keys, x); }
    }
  }

  lemma CampaignStatic(s: State, n: NodeId)
    requires Static(s) && n in s.servers
    ensures Static(TimeoutNext(s, n))
  {
    var v := s.servers[n];
    assert ServerStatic(s.config, n, v);
    SameStatic(s.config, n, v, StartElection(v));
    PostStatic(s, n, StartElection(v), Campaigning(n, v.term + 1));
  }

  lemma VoteReqStatic(s: State, m: Message)
    requires Static(s) && m in s.net && m.VoteReq? && m.to in s.servers
    ensures Static(VoteReqNext(s, m))
  {
    var v := s.servers[m.to];
    assert ServerStatic(s.config, m.to, v) && MessageStatic(s.config.Keys, m);
    var (w, r) := RequestVote(v, m.cand, m.term, m.lastIndex, m.lastTerm);
    SameStatic(s.config, m.to, v, w);
    PostStatic(s, m.to, w, SILENT.(sent := {VoteResp(m.to, m.cand, m.term, r)},
                                   grants := if r.granted then {E.Vote(m.to, m.term, m.cand)} else {}));
  }

  lemma VoteRespStatic(s: State, m: Message)
    requires Static(s) && m.VoteResp? && m.cand in s.servers
    ensures Static(VoteRespNext(s, m))
  {
    var v := s.servers[m.cand];
    assert ServerStatic(s.config, m.cand, v);
    SameStatic(s.config, m.cand, v, HandleVoteReply(v, m.vote));
    PostStatic(s, m.cand, HandleVoteReply(v, m.vote), SILENT.(returned := {E.Vote(m.voter, m.term, m.cand)}));
  }

  lemma AppendNextStatic(s: State, m: Message)
    requires Static(s) && m in s.net && m.AppendReq? && m.to in s.servers
    ensures Static(AppendNext(s, m))
  {
    var v := s.servers[m.to];
    assert ServerStatic(s.config, m.to, v) && MessageStatic(s.config.Keys, m);
    AppendStatic(s.config, m.to, v, m.q);
    var (w, r) := AppendEntries(v, m.q);
    PostStatic(s, m.to, w, SILENT.(sent := {AppendResp(m.to, m.q, r)},
                                   accepts := if r.success then {Accept(m.to, m.q.term, m.q.prev + |m.q.entries|)}
                                              else {}));
  }

  lemma InstallNextStatic(s: State, m: Message)
    requires Static(s) && m.SnapReq? && m.to in s.servers
    ensures Static(InstallNext(s, m))
  {
    var v := s.servers[m.to];
    assert ServerStatic(s.config, m.to, v);
    CompactStatic(s.config, m.to, StepUp(v, m.term), m.sn);
    PostStatic(s, m.to, InstallSnapshot(v, m.term, m.sn),
         if m.term < v.term then SILENT else SILENT.(accepts := {Accept(m.to, m.term, m.sn.index)}));
  }

  lemma ApplyOneStatic(s: State, n: NodeId)
    requires Static(s) && n in s.servers && CanApply(s.servers[n])
    ensures Static(ApplyOneNext(s, n))
  {
    var v := s.servers[n];
    assert ServerStatic(s.config, n, v);
    var (w, e) := ApplyNext(v);
    SameStatic(s.config, n, v, w);
    PostStatic(s, n, w, SILENT.(applied := {P.Applied(n, v.lastApplied + 1, e)}));
  }

  lemma SnapStatic(s: State, n: NodeId, data: Store)
    requires Static(s) && n in s.servers
    ensures Static(Post(s, n, CreateSnapshot(s.servers[n], data), SILENT))
  {
    var v := s.servers[n];
    assert ServerStatic(s.config, n, v);
    var e := EntryAt(v.log, v.base, v.lastApplied);
    if e.Some? { CompactStatic(s.config, n, v, Snapshot(v.lastApplied, e.value.term, data)); }
    PostStatic(s, n, CreateSnapshot(v, data), SILENT);
  }

  lemma CrashStatic(s: State, n: NodeId)
    requires Static(s) && n in s.servers && n in s.config
    ensures Static(Post(s, n, Boot(n, s.config[n], s.servers[n].disk), SILENT))
  {
    assert ServerStatic(s.config, n, s.servers[n]);
    BootStatic(s.config, n, s.servers[n].disk);
    PostStatic(s, n, Boot(n, s.config[n], s.servers[n].disk), SILENT);
  }

  lemma SubmitStatic(s: State, n: NodeId, c: Command)
    requires Static(s) && n in s.servers && !c.ConfigChange?
    ensures Static(Post(s, n, Propose(s.servers[n], c).0, SILENT))
  {
    assert ServerStatic(s.config, n, s.servers[n]);
    PostStatic(s, n, Propose(s.servers[n], c).0, SILENT);
  }

  /** The remaining handlers move terms, progress and peer indices only. */
  lemma QuietStatic(s: State, n: NodeId, w: Server)
    requires Static(s) && n in s.servers
    requires var v := s.servers[n];
             && w.id == v.id && w.peers == v.peers && w.removed == v.removed && w.log == v.log
             && w.disk.log == v.disk.log
             && (w.disk.peers == v.disk.peers || w.disk.peers == v.peers)
    ensures Static(Post(s, n, w, SILENT))
  {
    assert ServerStatic(s.config, n, s.servers[n]);
    SameStatic(s.config, n, s.servers[n], w);
    PostStatic(s, n, w, SILENT);
  }

  lemma SendStatic(s: State, n: NodeId, m: Message)
    requires Static(s) && n in s.servers && MessageStatic(s.config.Keys, m)
    ensures Static(SendNext(s, n, m))
  {
    assert ServerStatic(s.config, n, s.servers[n]);
    PostStatic(s, n, s.servers[n], SILENT.(sent := {m}));
  }

  lemma RequestStatic(s: State, n: NodeId, p: NodeId, t: nat, prev: nat, lo: nat, hi: nat)
    requires Static(s) && n in s.servers && p in s.servers[n].peers && Batch(s.servers[n], p, lo, hi)
    ensures MessageStatic(s.config.Keys, AppendReq(p, Request(s.servers[n], t, prev, lo, hi)))
  {
    PeerIsOther(s, n, p);
    assert ServerStatic(s.config, n, s.servers[n]);
  }

  /** The membership of a run is fixed unless a configuration change is proposed. */
  lemma NextStatic(s: State, ev: Event)
    requires Static(s) && Enabled(s, ev) && FixedMembership(ev)
    ensures Static(Next(s, ev))
  {
    match ev
    case Timeout(n) => CampaignStatic(s, n);
    case Transfer(n, t) => QuietStatic(s, n, StepUp(s.servers[n], t));
    case Transferred(n, x, t) => QuietStatic(s, n, TransferReply(s.servers[n], x, t));
    case AskVote(n, p, t) =>
      PeerIsOther(s, n, p);
      SendStatic(s, n, VoteReq(n, p, t, Last(s.servers[n]), LastTerm(s.servers[n].log)));
    case DeliverVoteReq(m) => VoteReqStatic(s, m);
    case DeliverVoteResp(m) => VoteRespStatic(s, m);
    case Submit(n, c) => SubmitStatic(s, n, c);
    case SendAppend(n, p, t, prev, lo, hi) =>
      RequestStatic(s, n, p, t, prev, lo, hi);
      SendStatic(s, n, AppendReq(p, Request(s.servers[n], t, prev, lo, hi)));
    case DeliverAppend(m) => AppendNextStatic(s, m);
    case DeliverAppendResp(m) =>
      QuietStatic(s, m.q.leader, HandleAppendReply(s.servers[m.q.leader], m.peer, m.q, m.reply));
    case SendSnapshot(n, p, t) =>
      PeerIsOther(s, n, p);
      SendStatic(s, n, SnapReq(n, p, t, s.servers[n].snap.value));
    case DeliverSnapshot(m) => InstallNextStatic(s, m);
    case SnapshotCallDone(m) => QuietStatic(s, m.sender, SnapshotSent(s.servers[m.sender], m.to, m.sn.index));
    case CountCommit(n) => QuietStatic(s, n, UpdateCommit(s.servers[n]));
    case ApplyOne(n) => ApplyOneStatic(s, n);
    case Snap(n, data) => SnapStatic(s, n, data);
    case Crash(n) => CrashStatic(s, n);
  }
}
