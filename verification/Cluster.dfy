/**
 A cluster of servers and the calls in flight between them. One event is one critical section of one
 node: the steps below are the source's, races included. `Assumed` lists, by name, what the safety
 theorems ask of a run beyond that.
 */
module Cluster {
  import opened Types
  import opened Server
  import E = Election
  import P = Protocol

  datatype Message =
    | VoteReq(cand: NodeId, to: NodeId, term: nat, lastIndex: nat, lastTerm: nat)
    | VoteResp(voter: NodeId, cand: NodeId, term: nat, vote: VoteReply)
    | AppendReq(to: NodeId, q: AppendRequest)
    | AppendResp(peer: NodeId, q: AppendRequest, reply: AppendReply)
    | SnapReq(sender: NodeId, to: NodeId, term: nat, sn: Snapshot)

  datatype Lead = Lead(node: NodeId, term: nat)

  /** The node acknowledged the leader of `term` through `index`. */
  datatype Accept = Accept(node: NodeId, term: nat, index: nat)

  /** The leader of `term` moved its commit index to `index` by counting a majority. */
  datatype Commit = Commit(term: nat, index: nat, entry: Entry)

  /** What a run has done so far. */
  datatype History = History(
    grants: set<E.Vote>, leads: set<Lead>, accepts: set<Accept>, commits: set<Commit>, applied: set<P.Applied>)

  /**
   `config` is each node's initial peer list. `campaigns` are the elections started, each with one vote
   call per peer; `returned` are the vote calls whose reply was handled. Messages are never removed, so
   any other message may be lost, delayed, reordered or duplicated. A TimeoutNow call is two events, the
   term it carries (`Transfer`) and the election it forces (`Timeout`).
   */
  datatype State = State(
    config: map<NodeId, seq<NodeId>>,
    servers: map<NodeId, Server>,
    net: set<Message>,
    campaigns: set<Lead>,
    returned: set<E.Vote>,
    hist: History)

  datatype Event =
    | Timeout(n: NodeId)
    | Transfer(n: NodeId, t: nat)
    | Transferred(n: NodeId, target: NodeId, t: nat)
    | AskVote(n: NodeId, p: NodeId, t: nat)
    | DeliverVoteReq(m: Message)
    | DeliverVoteResp(m: Message)
    | Submit(n: NodeId, cmd: Command)
    | SendAppend(n: NodeId, p: NodeId, t: nat, prev: nat, lo: nat, hi: nat)
    | DeliverAppend(m: Message)
    | DeliverAppendResp(m: Message)
    | SendSnapshot(n: NodeId, p: NodeId, t: nat)
    | DeliverSnapshot(m: Message)
    | SnapshotCallDone(m: Message)
    | CountCommit(n: NodeId)
    | ApplyOne(n: NodeId)
    | Snap(n: NodeId, data: Store)
    | Crash(n: NodeId)

  // ------------------------------------------------------------ what can happen

  /** The first index to send to p. */
  function NextOf(s: Server, p: NodeId): nat {
    if Get(s.nextIndex, p) == 0 then s.base + 1 else Get(s.nextIndex, p)
  }

  /** The request for entries lo+1..hi, claiming `prev` as the index before them and t as the term. */
  function Request(s: Server, t: nat, prev: nat, lo: nat, hi: nat): AppendRequest
    requires s.base <= lo <= hi && (lo < hi ==> hi - s.base < |s.log|)
  {
    var e := EntryAt(s.log, s.base, prev);
    AppendRequest(s.id, t, prev, if e.Some? then e.value.term else 0,
                  if lo < hi then s.log[lo + 1 - s.base..hi + 1 - s.base] else [], s.commitIndex)
  }

  /** A batch of the entries pending for p; with nothing pending it is an empty heartbeat. */
  predicate Batch(s: Server, p: NodeId, lo: nat, hi: nat) {
    && s.base < NextOf(s, p) <= lo + 1
    && (s.snap.Some? ==> s.snap.value.index < NextOf(s, p))
    && lo <= hi
    && if lo < hi then hi - s.base < |s.log| else lo == NextOf(s, p) - 1
  }

  predicate Enabled(s: State, ev: Event) {
    match ev
    case Timeout(n) => n in s.servers
    case Transfer(n, _) => n in s.servers
    case Transferred(n, _, _) => n in s.servers
    case AskVote(n, p, t) => n in s.servers && p in s.servers[n].peers && Lead(n, t) in s.campaigns
    case DeliverVoteReq(m) => m in s.net && m.VoteReq? && m.to in s.servers
    case DeliverVoteResp(m) =>
      m in s.net && m.VoteResp? && m.cand in s.servers && E.Vote(m.voter, m.term, m.cand) !in s.returned
    case Submit(n, _) => n in s.servers
    case SendAppend(n, p, t, prev, lo, hi) =>
      n in s.servers && p in s.servers[n].peers && t <= s.servers[n].term && prev <= lo
        && Batch(s.servers[n], p, lo, hi)
    case DeliverAppend(m) => m in s.net && m.AppendReq? && m.to in s.servers
    case DeliverAppendResp(m) => m in s.net && m.AppendResp? && m.q.leader in s.servers
    case SendSnapshot(n, p, t) =>
      n in s.servers && p in s.servers[n].peers && t <= s.servers[n].term && s.servers[n].snap.Some?
    case DeliverSnapshot(m) => m in s.net && m.SnapReq? && m.to in s.servers
    case SnapshotCallDone(m) => m in s.net && m.SnapReq? && m.sender in s.servers
    case CountCommit(n) => n in s.servers
    case ApplyOne(n) => n in s.servers && CanApply(s.servers[n])
    case Snap(n, _) => n in s.servers
    case Crash(n) => n in s.servers && n in s.config
  }

  // ------------------------------------------------------------- what it does

  /** What an event adds to the network and to the history, besides changing its node. */
  datatype Effect = Effect(
    sent: set<Message>, campaigns: set<Lead>, returned: set<E.Vote>,
    grants: set<E.Vote>, accepts: set<Accept>, applied: set<P.Applied>)

  const SILENT := Effect({}, {}, {}, {}, {}, {})

  /** The election a change of node n from v to w wins: it leads a term it did not lead before. */
  function Wins(n: NodeId, v: Server, w: Server): set<Lead> {
    if w.role == Leader && (v.role != Leader || v.term != w.term) then {Lead(n, w.term)} else {}
  }

  /** The index it commits by counting: a leader's commit index moved. */
  function Commits(v: Server, w: Server): set<Commit> {
    var e := EntryAt(w.log, w.base, w.commitIndex);
    if w.role == Leader && w.commitIndex > v.commitIndex && e.Some? then {Commit(w.term, w.commitIndex, e.value)}
       else {}
  }

  /** Node n becomes w, with the given effect. */
  function Post(s: State, n: NodeId, w: Server, fx: Effect): State
    requires n in s.servers
  {
    State(
      s.config, s.servers[n := w], s.net + fx.sent, s.campaigns + fx.campaigns, s.returned + fx.returned,
      History(s.hist.grants + fx.grants, s.hist.leads + Wins(n, s.servers[n], w), s.hist.accepts + fx.accepts,
              s.hist.commits + Commits(s.servers[n], w), s.hist.applied + fx.applied))
  }

  /** An election started: the node's own vote, and one call to each peer. */
  function Campaigning(n: NodeId, t: nat): Effect {
    SILENT.(campaigns := {Lead(n, t)}, grants := {E.Vote(n, t, n)})
  }

  function TimeoutNext(s: State, n: NodeId): State
    requires n in s.servers
  {
    var v := s.servers[n];
    Post(s, n, StartElection(v), if v.removed then SILENT else Campaigning(n, v.term + 1))
  }

  function VoteReqNext(s: State, m: Message): State
    requires m.VoteReq? && m.to in s.servers
  {
    var (w, r) := RequestVote(s.servers[m.to], m.cand, m.term, m.lastIndex, m.lastTerm);
    Post(s, m.to, w, SILENT.(sent := {VoteResp(m.to, m.cand, m.term, r)},
                             grants := if r.granted then {E.Vote(m.to, m.term, m.cand)} else {}))
  }

  function VoteRespNext(s: State, m: Message): State
    requires m.VoteResp? && m.cand in s.servers
  {
    Post(s, m.cand, HandleVoteReply(s.servers[m.cand], m.vote), SILENT.(returned := {E.Vote(m.voter, m.term, m.cand)}))
  }

  function AppendNext(s: State, m: Message): State
    requires m.AppendReq? && m.to in s.servers
  {
    var (w, r) := AppendEntries(s.servers[m.to], m.q);
    Post(s, m.to, w, SILENT.(sent := {AppendResp(m.to, m.q, r)},
                             accepts := if r.success then {Accept(m.to, m.q.term, m.q.prev + |m.q.entries|)} else {}))
  }

  function InstallNext(s: State, m: Message): State
    requires m.SnapReq? && m.to in s.servers
  {
    var v := s.servers[m.to];
    Post(s, m.to, InstallSnapshot(v, m.term, m.sn),
         if m.term < v.term then SILENT else SILENT.(accepts := {Accept(m.to, m.term, m.sn.index)}))
  }

  function ApplyOneNext(s: State, n: NodeId): State
    requires n in s.servers && CanApply(s.servers[n])
  {
    var (w, e) := ApplyNext(s.servers[n]);
    Post(s, n, w, SILENT.(applied := {P.Applied(n, s.servers[n].lastApplied + 1, e)}))
  }

  /** A node sends without changing. */
  function SendNext(s: State, n: NodeId, m: Message): State
    requires n in s.servers
  {
    Post(s, n, s.servers[n], SILENT.(sent := {m}))
  }

  function Next(s: State, ev: Event): State
    requires Enabled(s, ev)
  {
    match ev
    case Timeout(n) => TimeoutNext(s, n)
    case Transfer(n, t) => Post(s, n, StepUp(s.servers[n], t), SILENT)
    case Transferred(n, x, t) => Post(s, n, TransferReply(s.servers[n], x, t), SILENT)
    case AskVote(n, p, t) => SendNext(s, n, VoteReq(n, p, t, Last(s.servers[n]), LastTerm(s.servers[n].log)))
    case DeliverVoteReq(m) => VoteReqNext(s, m)
    case DeliverVoteResp(m) => VoteRespNext(s, m)
    case Submit(n, cmd) => Post(s, n, Propose(s.servers[n], cmd).0, SILENT)
    case SendAppend(n, p, t, prev, lo, hi) => SendNext(s, n, AppendReq(p, Request(s.servers[n], t, prev, lo, hi)))
    case DeliverAppend(m) => AppendNext(s, m)
    case DeliverAppendResp(m) =>
      Post(s, m.q.leader, HandleAppendReply(s.servers[m.q.leader], m.peer, m.q, m.reply), SILENT)
    case SendSnapshot(n, p, t) => SendNext(s, n, SnapReq(n, p, t, s.servers[n].snap.value))
    case DeliverSnapshot(m) => InstallNext(s, m)
    case SnapshotCallDone(m) => Post(s, m.sender, SnapshotSent(s.servers[m.sender], m.to, m.sn.index), SILENT)
    case CountCommit(n) => Post(s, n, UpdateCommit(s.servers[n]), SILENT)
    case ApplyOne(n) => ApplyOneNext(s, n)
    case Snap(n, data) => Post(s, n, CreateSnapshot(s.servers[n], data), SILENT)
    case Crash(n) => Post(s, n, Boot(n, s.config[n], s.servers[n].disk), SILENT)
  }

  // ------------------------------------------------------------- what is assumed

  /** A granted vote is counted only in the term it was asked for. */
  predicate FreshVote(s: Server, m: Message)
    requires m.VoteResp?
  {
    m.vote.granted && m.vote.term <= s.term && s.role == Candidate ==> s.term == m.term
  }

  /** A leader records a success only for a request of its current term. */
  predicate FreshAck(s: Server, m: Message)
    requires m.AppendResp?
  {
    m.reply.success && m.reply.term <= s.term && s.role == Leader ==> s.term == m.q.term
  }

  /** Once the request is merged, the clamp to the own last index is no looser than one to the last new entry. */
  predicate TightClamp(s: Server, q: AppendRequest) {
    || q.commit <= s.commitIndex
    || q.commit <= q.prev + |q.entries|
    || LastIndex(Merge(s.log, s.base, q.entries), s.base) <= q.prev + |q.entries|
  }

  /** A snapshot is not below the base, and no uncommitted suffix is kept that its boundary contradicts. */
  predicate SaneSnapshot(s: Server, sn: Snapshot) {
    && s.base <= sn.index
    && (|| sn.index <= s.commitIndex
        || Last(s) <= sn.index
        || (EntryAt(s.log, s.base, sn.index).Some? && EntryAt(s.log, s.base, sn.index).value.term == sn.term))
  }

  /** A request is built by a node that leads the term it carries. */
  predicate BuiltByLeader(s: Server, t: nat) {
    s.role == Leader && s.term == t
  }

  /** No term in which the node acknowledged entries is lost with its memory. */
  ghost predicate DurableAcks(s: State, n: NodeId)
    requires n in s.servers
  {
    forall a :: a in s.hist.accepts && a.node == n ==> a.term <= s.servers[n].disk.term
  }

  /** Membership is fixed: no configuration change is proposed. */
  predicate FixedMembership(ev: Event) {
    ev.Submit? ==> !ev.cmd.ConfigChange?
  }

  /** Enough for election safety. */
  predicate FreshElections(s: State, ev: Event)
    requires Enabled(s, ev)
  {
    FixedMembership(ev) && (ev.DeliverVoteResp? ==> FreshVote(s.servers[ev.m.cand], ev.m))
  }

  /** Enough for every theorem. */
  ghost predicate Assumed(s: State, ev: Event)
    requires Enabled(s, ev)
  {
    && FreshElections(s, ev)
    && (ev.SendAppend? ==> ev.prev == ev.lo && BuiltByLeader(s.servers[ev.n], ev.t))
    && (ev.SendSnapshot? ==> BuiltByLeader(s.servers[ev.n], ev.t))
    && (ev.DeliverAppend? && AppendEntries(s.servers[ev.m.to], ev.m.q).1.success ==>
        TightClamp(s.servers[ev.m.to], ev.m.q))
    && (ev.DeliverAppendResp? ==> FreshAck(s.servers[ev.m.q.leader], ev.m))
    && (ev.DeliverSnapshot? ==> ev.m.term < s.servers[ev.m.to].term || SaneSnapshot(s.servers[ev.m.to], ev.m.sn))
    && (ev.Crash? ==> DurableAcks(s, ev.n))
  }

  // ------------------------------------------------------------------------ runs

  ghost predicate NoRepeats(xs: seq<NodeId>) {
    forall i, j :: 0 <= i < j < |xs| ==> xs[i] != xs[j]
  }

  function Elems(xs: seq<NodeId>): set<NodeId> { set x | x in xs }

  ghost predicate ListsOthers(config: map<NodeId, seq<NodeId>>, n: NodeId) {
    n in config && NoRepeats(config[n]) && Elems(config[n]) == config.Keys - {n}
  }

  /** Every node lists every other node once. */
  ghost predicate FullMesh(config: map<NodeId, seq<NodeId>>) {
    && NOBODY !in config
    && forall n {:trigger ListsOthers(config, n)} :: n in config ==> ListsOthers(config, n)
  }

  /** First boot of every node on an empty disk. */
  ghost predicate Init(s: State) {
    && FullMesh(s.config)
    && s.servers == (map n | n in s.config :: Boot(n, s.config[n], EMPTY_DISK))
    && s.net == {} && s.campaigns == {} && s.returned == {} && s.hist == History({}, {}, {}, {}, {})
  }

  ghost predicate Follows(states: seq<State>, events: seq<Event>, i: int) {
    0 <= i < |events| && i + 1 < |states| && Enabled(states[i], events[i])
      && states[i + 1] == Next(states[i], events[i])
  }

  ghost predicate Run(states: seq<State>, events: seq<Event>) {
    && |states| == |events| + 1
    && Init(states[0])
    && forall i {:trigger Follows(states, events, i)} :: 0 <= i < |events| ==> Follows(states, events, i)
  }
}
