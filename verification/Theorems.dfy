/** The guarantees of the Raft paper, for every run of the cluster. */
module Theorems {
  import opened Types
  import opened Server
  import opened Cluster
  import opened Membership
  import opened Votes
  import opened Offices
  import opened Compaction
  import opened Logs
  import opened Simulation
  import opened Safety
  import E = Election
  import P = Protocol
  import S = ProtocolSteps

  // ------------------------------------------------------------------ the start

  ghost function Start(config: map<NodeId, seq<NodeId>>): P.State {
    var b := E.Ballot(0, NOBODY);
    P.State(E.State(map n | n in config :: E.Member(b, b, Follower, {}), {}, map[]),
            map n | n in config :: P.Node([ROOT], 0, 0, 0, 0), map[], map[], map[], {})
  }

  lemma FirstBoot(s: State, n: NodeId)
    requires Init(s) && n in s.servers
    ensures var v := s.servers[n];
            && v.term == 0 && v.votedFor == NOBODY && v.role == Follower && v.disk == EMPTY_DISK && v.snap == None
            && v.log == [ROOT] && v.base == v.commitIndex == v.lastApplied == 0
  {
    BootLoads(n, s.config[n], EMPTY_DISK);
  }

  lemma StartIsSound(config: map<NodeId, seq<NodeId>>)
    ensures P.Inv(Start(config))
  {
  }

  lemma StartVotes(config: map<NodeId, seq<NodeId>>)
    ensures E.VoteInv(Start(config).e) && E.WinInv(Start(config).e)
  {
  }

  lemma InitVotes(s: State)
    requires Init(s)
    ensures VoteView(s, Start(s.config).e) && OfficeView(s, Start(s.config).e)
  {
    var e := Start(s.config).e;
    forall n | n in s.servers ensures Mirrors(s.servers[n], e.members[n]) && Office(s, e, n) { FirstBoot(s, n); }
  }

  lemma InitServer(s: State, n: NodeId)
    requires Init(s) && n in s.servers
    ensures ServerView(s, Start(s.config), n)
  {
    FirstBoot(s, n);
    hide Boot, FullMesh;
  }

  lemma InitLogs(s: State)
    requires Init(s)
    ensures LogView(s, Start(s.config))
  {
    hide ServerView, Boot, FullMesh;
    var a := Start(s.config);
    forall n | n in s.servers ensures ServerView(s, a, n) { InitServer(s, n); }
  }

  lemma InitRefines(s: State)
    requires Init(s)
    ensures Refines(s, Start(s.config))
  {
    InitStatic(s);
    InitVotes(s);
    InitLogs(s);
    StartIsSound(s.config);
    hide P.Inv, VoteView, OfficeView, LogView, Static, Init;
  }

  // ------------------------------------------------------------------- the runs

  /** Membership is fixed; nothing else is assumed. */
  ghost predicate FixedRun(states: seq<State>, events: seq<Event>) {
    Run(states, events) && forall i {:trigger Follows(states, events, i)} :: Follows(states, events, i) ==>
      FixedMembership(events[i])
  }

  /** ... and votes are counted only in the term they were asked for. */
  ghost predicate FreshRun(states: seq<State>, events: seq<Event>) {
    Run(states, events) && forall i {:trigger Follows(states, events, i)} :: Follows(states, events, i) ==>
      FreshElections(states[i], events[i])
  }

  /** ... and every other assumption of the model holds at every event. */
  ghost predicate AssumedRun(states: seq<State>, events: seq<Event>) {
    Run(states, events) && forall i {:trigger Follows(states, events, i)} :: Follows(states, events, i) ==>
      Assumed(states[i], events[i])
  }

  /** What a run with fixed membership keeps, and what one with fresh votes keeps as well. */
  ghost predicate VotesHold(s: State, e: E.State) {
    Static(s) && VoteView(s, e) && E.VoteInv(e)
  }

  ghost predicate OfficesHold(s: State, e: E.State) {
    VotesHold(s, e) && OfficeView(s, e) && E.WinInv(e)
  }

  lemma InitHolds(s: State)
    requires Init(s)
    ensures OfficesHold(s, Start(s.config).e)
  {
    hide Init, VoteView, OfficeView, Static, E.VoteInv, E.WinInv, Start;
    InitStatic(s);
    InitVotes(s);
    StartVotes(s.config);
  }

  lemma NextVotesHold(s: State, ev: Event, e: E.State)
    requires Enabled(s, ev) && FixedMembership(ev) && VotesHold(s, e)
    ensures s.servers.Keys == e.members.Keys && VotesHold(Next(s, ev), VoteStep(s, ev, e))
  {
    KeysAgree(s, e);
    hide VoteView, Static, Next, VoteStep, E.VoteInv;
    NextStatic(s, ev);
    NextVotes(s, ev, e);
  }

  lemma NextOfficesHold(s: State, ev: Event, e: E.State)
    requires Enabled(s, ev) && FreshElections(s, ev) && OfficesHold(s, e)
    ensures s.servers.Keys == e.members.Keys && OfficesHold(Next(s, ev), VoteStep(s, ev, e))
  {
    NextVotesHold(s, ev, e);
    hide VoteView, OfficeView, Static, Next, VoteStep, E.VoteInv, E.WinInv;
    NextOffices(s, ev, e);
  }

  lemma {:induction false} FixedRunVotes(states: seq<State>, events: seq<Event>, i: nat) returns (e: E.State)
    requires FixedRun(states, events) && i < |states|
    ensures VotesHold(states[i], e)
  {
    hide VotesHold, Next, VoteStep, Enabled;
    if i == 0 {
      InitHolds(states[0]);
      e := Start(states[0].config).e;
    } else {
      var d := FixedRunVotes(states, events, i - 1);
      assert Follows(states, events, i - 1);
      NextVotesHold(states[i - 1], events[i - 1], d);
      e := VoteStep(states[i - 1], events[i - 1], d);
    }
  }

  lemma {:induction false} FreshRunVotes(states: seq<State>, events: seq<Event>, i: nat) returns (e: E.State)
    requires FreshRun(states, events) && i < |states|
    ensures OfficesHold(states[i], e)
  {
    hide OfficesHold, Next, VoteStep, Enabled, FreshElections;
    if i == 0 {
      InitHolds(states[0]);
      e := Start(states[0].config).e;
    } else {
      var d := FreshRunVotes(states, events, i - 1);
      assert Follows(states, events, i - 1);
      NextOfficesHold(states[i - 1], events[i - 1], d);
      e := VoteStep(states[i - 1], events[i - 1], d);
    }
  }

  lemma {:induction false} AssumedRunRefines(states: seq<State>, events: seq<Event>, i: nat) returns (a: P.State)
    requires AssumedRun(states, events) && i < |states|
    ensures Refines(states[i], a)
  {
    hide Refines, Next, Enabled, Assumed;
    if i == 0 {
      InitRefines(states[0]);
      a := Start(states[0].config);
    } else {
      var b := AssumedRunRefines(states, events, i - 1);
      assert Follows(states, events, i - 1);
      a := NextRefines(states[i - 1], events[i - 1], b);
    }
  }

  // ----------------------------------------------------------------- the theorems

  /** One vote per term, across any crashes and however votes are counted. */
  lemma OneVotePerTerm(states: seq<State>, events: seq<Event>, i: nat, v: E.Vote, w: E.Vote)
    requires FixedRun(states, events) && i < |states|
    requires v in states[i].hist.grants && w in states[i].hist.grants && v.voter == w.voter && v.term == w.term
    ensures v.cand == w.cand
  {
    var e := FixedRunVotes(states, events, i);
    assert !E.Clash(v, w);
  }

  /** Election safety: no two nodes ever led the same term, across any crashes. */
  lemma ElectionSafety(states: seq<State>, events: seq<Event>, i: nat, l: Lead, k: Lead)
    requires FreshRun(states, events) && i < |states|
    requires l in states[i].hist.leads && k in states[i].hist.leads && l.term == k.term
    ensures l.node == k.node
  {
    var e := FreshRunVotes(states, events, i);
  }

  /** Log matching: equal index and term means equal entries up to there, wherever both logs still hold them. */
  lemma LogMatching(states: seq<State>, events: seq<Event>, i: nat, n: NodeId, m: NodeId, k: nat, j: nat)
    requires AssumedRun(states, events) && i < |states| && n in states[i].servers && m in states[i].servers
    requires var v, w := states[i].servers[n], states[i].servers[m];
             && EntryAt(v.log, v.base, k).Some? && EntryAt(w.log, w.base, k).Some?
             && EntryAt(v.log, v.base, k).value.term == EntryAt(w.log, w.base, k).value.term
             && v.base < j <= k && w.base < j
    ensures var v, w := states[i].servers[n], states[i].servers[m];
            EntryAt(v.log, v.base, j).Some? && EntryAt(v.log, v.base, j) == EntryAt(w.log, w.base, j)
  {
    var a := AssumedRunRefines(states, events, i);
    var v, w := states[i].servers[n], states[i].servers[m];
    NodeLogs(states[i], a, n, k);
    NodeLogs(states[i], a, m, k);
    NodeLogs(states[i], a, n, j);
    NodeLogs(states[i], a, m, j);
    hide P.Inv, LogView, Refines;
    P.LogMatching(a.reigns, a.nodes[n].log, a.nodes[m].log, k);
  }

  /** A node's log, seen through the full log it stands for. */
  lemma NodeLogs(s: State, a: P.State, n: NodeId, k: nat)
    requires Refines(s, a) && n in s.servers
    ensures n in a.nodes && P.Matched(a.reigns, a.nodes[n].log) && Shape(s.servers[n].log, s.servers[n].base)
    ensures var v, full := s.servers[n], a.nodes[n].log;
            && (EntryAt(v.log, v.base, k).Some? <==> v.base <= k < |full|)
            && (v.base <= k < |full| ==> EntryAt(v.log, v.base, k).value.term == full[k].term)
            && (v.base < k < |full| ==> EntryAt(v.log, v.base, k) == Some(full[k]))
  {
    hide P.Inv, LogView, VoteView, OfficeView, Static;
    NodeFacts(s, a, n);
    CompactedShape(a.reigns, s.servers[n].log, s.servers[n].base, a.nodes[n].log);
  }

  /** The node still holds e at index k, or its snapshot covers k. */
  ghost predicate StillHolds(v: Server, k: nat, e: Entry) {
    || k < v.base
    || (k == v.base && |v.log| > 0 && v.log[0].term == e.term)
    || EntryAt(v.log, v.base, k) == Some(e)
  }

  /** Leader completeness: what a leader of term t committed by counting, every leader of term t or later holds. */
  lemma LeaderCompleteness(states: seq<State>, events: seq<Event>, i: nat, c: Commit, n: NodeId)
    requires AssumedRun(states, events) && i < |states| && c in states[i].hist.commits
    requires n in states[i].servers && states[i].servers[n].role == Leader && c.term <= states[i].servers[n].term
    ensures StillHolds(states[i].servers[n], c.index, c.entry)
  {
    var a := AssumedRunRefines(states, events, i);
    hide Refines, Run;
    CommittedInLeader(states[i], a, c, n);
    NodeLogs(states[i], a, n, c.index);
  }

  lemma CommittedInLeader(s: State, a: P.State, c: Commit, n: NodeId)
    requires Refines(s, a) && c in s.hist.commits && n in s.servers && s.servers[n].role == Leader
             && c.term <= s.servers[n].term
    ensures n in a.nodes && c.index < |a.nodes[n].log| && a.nodes[n].log[c.index] == c.entry
  {
    HandlerFacts(s, a, n);
    hide VoteView, OfficeView, Static;
    var t := s.servers[n].term;
    assert P.NodeOk(a, n) && CommitLogged(a, c);
    if c.term < t {
      P.LeaderCompleteness(a, c.term, c.index, t);
    }
  }

  /** State machine safety: no two nodes ever applied different entries at one index. */
  lemma StateMachineSafety(states: seq<State>, events: seq<Event>, i: nat, x: P.Applied, y: P.Applied)
    requires AssumedRun(states, events) && i < |states|
    requires x in states[i].hist.applied && y in states[i].hist.applied && x.index == y.index
    ensures x.entry == y.entry
  {
    var a := AssumedRunRefines(states, events, i);
    AppliedAgree(states[i], a, x, y);
  }

  lemma AppliedAgree(s: State, a: P.State, x: P.Applied, y: P.Applied)
    requires Refines(s, a) && x in s.hist.applied && y in s.hist.applied && x.index == y.index
    ensures x.entry == y.entry
  {
    hide VoteView, OfficeView, Static;
    assert P.AppliedOk(a, x) && P.AppliedOk(a, y);
    P.CommitsAgree(a, x.node, y.node, x.index);
  }

  // ------------------------------------------------------------ across a run

  lemma {:induction false} RunEvolves(states: seq<State>, events: seq<Event>, j: nat, i: nat, a: P.State)
    returns (b: P.State)
    requires AssumedRun(states, events) && j <= i < |states| && Refines(states[j], a)
    ensures Refines(states[i], b) && Evolves(a, b)
  {
    if i == j {
      SameEvolves(a);
      b := a;
    } else {
      var c := RunEvolves(states, events, j, i - 1, a);
      assert Follows(states, events, i - 1);
      hide Refines, Next, Enabled, Assumed, Evolves;
      b := NextRefines(states[i - 1], events[i - 1], c);
      EvolvesTwice(a, c, b);
    }
  }

  /** A leader's entry is part of its reign. */
  lemma LeaderEntry(s: State, a: P.State, n: NodeId, k: nat, e: Entry)
    requires Refines(s, a) && n in s.servers && s.servers[n].role == Leader
    requires s.servers[n].base < k && EntryAt(s.servers[n].log, s.servers[n].base, k) == Some(e)
    ensures var t := s.servers[n].term; t in a.reigns && k < |a.reigns[t].log| && a.reigns[t].log[k] == e
  {
    HandlerFacts(s, a, n);
    NodeLogs(s, a, n, k);
    hide VoteView, OfficeView, Static;
    assert P.NodeOk(a, n);
  }

  /** A proposal leaves its command at the index returned. */
  lemma ProposedEntry(s: State, n: NodeId, cmd: Command)
    requires Enabled(s, Submit(n, cmd)) && s.servers[n].role == Leader
    requires Shape(s.servers[n].log, s.servers[n].base)
    ensures var v, w := s.servers[n], Next(s, Submit(n, cmd)).servers[n];
            var k := Propose(v, cmd).1.value;
            w.role == Leader && w.term == v.term && w.base < k
              && EntryAt(w.log, w.base, k) == Some(Entry(k, v.term, cmd))
  {
    hide Wins, Commits;
  }

  /**
   What an acknowledged proposal is worth: the entry applied at the index it returned, by any node and at any
   later time, is the proposed one if and only if it is of the term it was proposed in.
   */
  lemma ProposalApplied(states: seq<State>, events: seq<Event>, j: nat, i: nat, n: NodeId, cmd: Command, x: P.Applied)
    requires AssumedRun(states, events) && j < i < |states| && events[j] == Submit(n, cmd)
    requires n in states[j].servers && states[j].servers[n].role == Leader
    requires x in states[i].hist.applied && Some(x.index) == Propose(states[j].servers[n], cmd).1
    ensures var t := states[j].servers[n].term;
            x.entry == Entry(x.index, t, cmd) <==> x.entry.term == t
  {
    var v, k := states[j].servers[n], x.index;
    LogShape(states, events, j, n);
    var a := AssumedRunRefines(states, events, j + 1);
    var b := RunEvolves(states, events, j + 1, i, a);
    assert Follows(states, events, j);
    hide AssumedRun, Refines, Next, Propose, Evolves;
    ProposedEntry(states[j], n, cmd);
    LeaderEntry(states[j + 1], a, n, k, Entry(k, v.term, cmd));
    ReignKept(a, b, v.term, k);
    AppliedFromReign(states[i], b, x);
  }

  lemma ReignKept(a: P.State, b: P.State, t: nat, k: nat)
    requires Evolves(a, b) && t in a.reigns && k < |a.reigns[t].log|
    ensures t in b.reigns && k < |b.reigns[t].log| && b.reigns[t].log[k] == a.reigns[t].log[k]
  {
    assert S.Kept(a.reigns, b.reigns, t);
  }

  lemma AppliedFromReign(s: State, a: P.State, x: P.Applied)
    requires Refines(s, a) && x in s.hist.applied
    ensures var t := x.entry.term;
            t in a.reigns && x.index < |a.reigns[t].log| && a.reigns[t].log[x.index] == x.entry
  {
    AppliedFacts(s, a, x);
    NodeLogs(s, a, x.node, x.index);
    hide VoteView, OfficeView, Static;
    assert P.AppliedOk(a, x);
    assert P.Rooted(a.reigns, a.nodes[x.node].log, x.index);
  }

  /** An applied entry is never truncated: its node holds it, or a snapshot covering it, ever after. */
  lemma AppliedIsKept(states: seq<State>, events: seq<Event>, i: nat, x: P.Applied)
    requires AssumedRun(states, events) && i < |states| && x in states[i].hist.applied
    ensures x.node in states[i].servers && StillHolds(states[i].servers[x.node], x.index, x.entry)
  {
    var a := AssumedRunRefines(states, events, i);
    hide Refines, Run;
    AppliedFacts(states[i], a, x);
    NodeLogs(states[i], a, x.node, x.index);
  }

  lemma AppliedFacts(s: State, a: P.State, x: P.Applied)
    requires Refines(s, a) && x in s.hist.applied
    ensures x.node in s.servers && x.node in a.nodes && x.index < |a.nodes[x.node].log|
            && a.nodes[x.node].log[x.index] == x.entry
  {
    hide VoteView, OfficeView, Static;
    assert P.AppliedOk(a, x);
  }

  /**
   Sound commits: whatever a leader believes of a peer was committed before, or the peer acknowledged it in this term.
   */
  lemma SoundMatchIndex(states: seq<State>, events: seq<Event>, i: nat, n: NodeId, p: NodeId)
    requires AssumedRun(states, events) && i < |states| && n in states[i].servers
    requires states[i].servers[n].role == Leader && p in states[i].servers[n].peers
    ensures var v, h := states[i].servers[n], states[i].hist;
            var m := Get(v.matchIndex, p);
            || m == 0
            || (exists c :: c in h.commits && m <= c.index && c.term <= v.term)
            || (exists k :: m <= k && Accept(p, v.term, k) in h.accepts)
  {
    var a := AssumedRunRefines(states, events, i);
    hide Refines, Run;
    MatchFacts(states[i], a, n, p);
  }

  lemma MatchFacts(s: State, a: P.State, n: NodeId, p: NodeId)
    requires Refines(s, a) && n in s.servers && s.servers[n].role == Leader && p in s.servers[n].peers
    ensures var v, h := s.servers[n], s.hist;
            var m := Get(v.matchIndex, p);
            || m == 0
            || (exists c :: c in h.commits && m <= c.index && c.term <= v.term)
            || (exists k :: m <= k && Accept(p, v.term, k) in h.accepts)
  {
    hide LogView, P.Inv, HistoryView, VoteView, OfficeView, Static;
    HandlerFacts(s, a, n);
    NodeFacts(s, a, n);
    PeerIsOther(s, n, p);
    var v, x := s.servers[n], a.nodes[n];
    var m := Get(v.matchIndex, p);
    if 0 < m <= x.commit {
      assert Commit(x.certTerm, x.certIndex, a.reigns[x.certTerm].log[x.certIndex]) in s.hist.commits;
    } else if m > 0 {
      AckFacts(s, a, p, v.term);
    }
  }

  lemma AckFacts(s: State, a: P.State, p: NodeId, t: nat)
    requires LogView(s, a) && (p, t) in a.acked
    ensures t in a.e.wins && (a.e.wins[t].leader == p || Accept(p, t, a.acked[(p, t)]) in s.hist.accepts)
  {
    assert AckLogged(s.hist, a, p, t);
  }

  /** A leader always has something to send: a snapshot that is due, or a request that starts inside its log. */
  lemma NothingOutOfRange(states: seq<State>, events: seq<Event>, i: nat, n: NodeId, p: NodeId)
    requires AssumedRun(states, events) && i < |states| && n in states[i].servers
    requires states[i].servers[n].role == Leader && p in states[i].servers[n].peers
    ensures var v := states[i].servers[n];
            && NextOf(v, p) <= Last(v) + 1
            && ((v.snap.Some? && NextOf(v, p) <= v.snap.value.index) || v.base < NextOf(v, p))
  {
    var a := AssumedRunRefines(states, events, i);
    hide Refines, Run;
    NextFacts(states[i], a, n, p);
  }

  lemma NextFacts(s: State, a: P.State, n: NodeId, p: NodeId)
    requires Refines(s, a) && n in s.servers && s.servers[n].role == Leader && p in s.servers[n].peers
    ensures var v := s.servers[n];
            && NextOf(v, p) <= Last(v) + 1
            && ((v.snap.Some? && NextOf(v, p) <= v.snap.value.index) || v.base < NextOf(v, p))
  {
    NodeLogs(s, a, n, s.servers[n].base);
    NodeLogs(s, a, n, Last(s.servers[n]) + 1);
    hide LogView, P.Inv, HistoryView, VoteView, OfficeView, Static;
    NodeFacts(s, a, n);
  }

  /** Log shape: position k of every log holds absolute index base + k. */
  lemma LogShape(states: seq<State>, events: seq<Event>, i: nat, n: NodeId)
    requires AssumedRun(states, events) && i < |states| && n in states[i].servers
    ensures Shape(states[i].servers[n].log, states[i].servers[n].base)
  {
    var a := AssumedRunRefines(states, events, i);
    hide Refines, Run;
    NodeLogs(states[i], a, n, 0);
  }
}
