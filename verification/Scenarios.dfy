/** Runs that break a guarantee once a single assumption is dropped. */
module Scenarios {
  import opened Types
  import opened Server
  import opened Cluster
  import opened Membership
  import opened Theorems
  import E = Election
  import P = Protocol

  /** A run in which every event is assumed, except those lifted. */
  ghost predicate NearlyAssumed(states: seq<State>, events: seq<Event>, lifted: Event -> bool) {
    && Run(states, events)
    && forall i {:trigger Follows(states, events, i)} :: Follows(states, events, i) ==>
         lifted(events[i]) || Assumed(states[i], events[i])
  }

  ghost predicate Reachable(s: State, lifted: Event -> bool) {
    exists states, events :: NearlyAssumed(states, events, lifted) && states[|events|] == s
  }

  lemma Onward(s: State, ev: Event, lifted: Event -> bool)
    requires Reachable(s, lifted) && Enabled(s, ev) && (lifted(ev) || Assumed(s, ev))
    ensures Reachable(Next(s, ev), lifted)
  {
    hide Next, Assumed, Enabled, Init;
    var states, events :| NearlyAssumed(states, events, lifted) && states[|events|] == s;
    var more, evs := states + [Next(s, ev)], events + [ev];
    forall i | 0 <= i < |evs| ensures Follows(more, evs, i) && (lifted(evs[i]) || Assumed(more[i], evs[i])) {
      if i < |events| {
        assert Follows(states, events, i);
        assert more[i] == states[i] && more[i + 1] == states[i + 1] && evs[i] == events[i];
      }
    }
    assert NearlyAssumed(more, evs, lifted) && more[|evs|] == Next(s, ev);
  }

  lemma Begin(s: State, lifted: Event -> bool)
    requires Init(s)
    ensures Reachable(s, lifted)
  {
    hide Init;
    var none: seq<Event> := [];
    assert NearlyAssumed([s], none, lifted) && [s][|none|] == s;
  }

  /** Nothing sent or recorded is lost. */
  ghost predicate Grew(s: State, s': State) {
    && s'.config == s.config && s.net <= s'.net && s.campaigns <= s'.campaigns
    && s.hist.leads <= s'.hist.leads && s.hist.commits <= s'.hist.commits && s.hist.applied <= s'.hist.applied
  }

  // ------------------------------------------------------------- one event each

  lemma Step(s: State, ev: Event, n: NodeId, w: Server, fx: Effect, lifted: Event -> bool) returns (s': State)
    requires Reachable(s, lifted) && Enabled(s, ev) && (lifted(ev) || Assumed(s, ev)) && n in s.servers
             && Next(s, ev) == Post(s, n, w, fx)
    ensures Reachable(s', lifted) && Grew(s, s') && s' == Post(s, n, w, fx)
  {
    Onward(s, ev, lifted);
    s' := Next(s, ev);
  }

  lemma Elect(s: State, n: NodeId, lifted: Event -> bool) returns (s': State)
    requires Reachable(s, lifted) && n in s.servers && !s.servers[n].removed
    ensures Reachable(s', lifted) && Grew(s, s') && s'.returned == s.returned
    ensures s'.servers == s.servers[n := StartElection(s.servers[n])] && Lead(n, s.servers[n].term + 1) in s'.campaigns
  {
    hide StartElection, Reachable;
    s' := Step(s, Timeout(n), n, StartElection(s.servers[n]), Campaigning(n, s.servers[n].term + 1), lifted);
  }

  /** The voter after granting node n its vote for a later term t. */
  function Voter(v: Server, n: NodeId, t: nat): Server { SaveMeta(StepUp(v, t).(votedFor := n)) }

  lemma Ask(s: State, n: NodeId, p: NodeId, t: nat, lifted: Event -> bool) returns (s': State)
    requires Reachable(s, lifted) && n in s.servers && p in s.servers[n].peers && Lead(n, t) in s.campaigns
    ensures Reachable(s', lifted) && Grew(s, s') && s'.returned == s.returned && s'.servers == s.servers
    ensures VoteReq(n, p, t, Last(s.servers[n]), LastTerm(s.servers[n].log)) in s'.net
  {
    hide Reachable;
    var m := VoteReq(n, p, t, Last(s.servers[n]), LastTerm(s.servers[n].log));
    s' := Step(s, AskVote(n, p, t), n, s.servers[n], SILENT.(sent := {m}), lifted);
  }

  lemma HandleAsk(s: State, m: Message, lifted: Event -> bool) returns (s': State)
    requires Reachable(s, lifted) && m in s.net && m.VoteReq? && m.to in s.servers
    ensures var (w, r) := RequestVote(s.servers[m.to], m.cand, m.term, m.lastIndex, m.lastTerm);
            && Reachable(s', lifted) && Grew(s, s') && s'.returned == s.returned
            && s'.servers == s.servers[m.to := w] && VoteResp(m.to, m.cand, m.term, r) in s'.net
  {
    hide RequestVote, Reachable;
    var (w, r) := RequestVote(s.servers[m.to], m.cand, m.term, m.lastIndex, m.lastTerm);
    s' := Step(s, DeliverVoteReq(m), m.to, w, SILENT.(sent := {VoteResp(m.to, m.cand, m.term, r)},
               grants := if r.granted then {E.Vote(m.to, m.term, m.cand)} else {}), lifted);
  }

  lemma VoterGrants(v: Server, n: NodeId, t: nat, li: nat, lt: nat)
    requires Known(v, n) && v.term < t && UpToDate(lt, li, LastTerm(v.log), Last(v))
    ensures RequestVote(v, n, t, li, lt) == (Voter(v, n, t), VoteReply(v.term, true))
  {
  }

  /** Node n asks p for its vote in its current term, and gets it. */
  lemma Granted(s: State, n: NodeId, p: NodeId, lifted: Event -> bool) returns (s': State)
    requires Reachable(s, lifted) && n in s.servers && p in s.servers && p in s.servers[n].peers
    requires Lead(n, s.servers[n].term) in s.campaigns && Known(s.servers[p], n)
             && s.servers[p].term < s.servers[n].term
    requires UpToDate(LastTerm(s.servers[n].log), Last(s.servers[n]), LastTerm(s.servers[p].log), Last(s.servers[p]))
    ensures var v, t := s.servers[p], s.servers[n].term;
            && Reachable(s', lifted) && Grew(s, s') && s'.returned == s.returned
            && s'.servers == s.servers[p := Voter(v, n, t)] && VoteResp(p, n, t, VoteReply(v.term, true)) in s'.net
  {
    hide Reachable, Voter, RequestVote;
    var v, t := s.servers[n], s.servers[n].term;
    var s1 := Ask(s, n, p, t, lifted);
    VoterGrants(s.servers[p], n, t, Last(v), LastTerm(v.log));
    s' := HandleAsk(s1, VoteReq(n, p, t, Last(v), LastTerm(v.log)), lifted);
  }

  lemma Count(s: State, m: Message, lifted: Event -> bool) returns (s': State)
    requires Reachable(s, lifted) && m in s.net && m.VoteResp? && m.cand in s.servers
             && E.Vote(m.voter, m.term, m.cand) !in s.returned
    requires lifted(DeliverVoteResp(m)) || FreshVote(s.servers[m.cand], m)
    ensures var w := HandleVoteReply(s.servers[m.cand], m.vote);
            && Reachable(s', lifted) && Grew(s, s') && s'.returned == s.returned + {E.Vote(m.voter, m.term, m.cand)}
            && s'.servers == s.servers[m.cand := w] && Wins(m.cand, s.servers[m.cand], w) <= s'.hist.leads
  {
    hide HandleVoteReply, Reachable;
    var w := HandleVoteReply(s.servers[m.cand], m.vote);
    s' := Step(s, DeliverVoteResp(m), m.cand, w, SILENT.(returned := {E.Vote(m.voter, m.term, m.cand)}), lifted);
  }

  // ------------------------------------------------------------ what nodes become

  /** Everything but ballot, role and peer indices. */
  ghost predicate Kept(v: Server, w: Server) {
    && w.id == v.id && w.peers == v.peers && w.log == v.log && w.base == v.base && w.snap == v.snap
    && w.removed == v.removed
    && w.commitIndex == v.commitIndex && w.lastApplied == v.lastApplied && w.disk.log == v.disk.log
    && w.disk.snap == v.disk.snap
  }

  lemma ElectFacts(v: Server)
    requires !v.removed && Quorum(v) > 1
    ensures var w := StartElection(v);
            Kept(v, w) && w.role == Candidate && w.term == w.disk.term == v.term + 1 && w.votes == 1
              && w.disk.peers == v.peers
  {
  }

  lemma VoterFacts(v: Server, n: NodeId, t: nat)
    requires v.term < t
    ensures var w := Voter(v, n, t); Kept(v, w) && w.role == Follower && w.term == t
  {
  }

  lemma CountFacts(v: Server, r: VoteReply)
    requires v.role == Candidate && r.granted && r.term <= v.term
    ensures var w := HandleVoteReply(v, r);
            && Kept(v, w) && w.term == v.term && w.disk == v.disk && w.votes == v.votes + 1
            && w.role == (if v.votes + 1 >= Quorum(v) then Leader else Candidate)
            && (w.role == Leader ==> forall p :: p in v.peers ==>
                Get(w.nextIndex, p) == Last(v) + 1 && Get(w.matchIndex, p) == v.base)
  {
  }

  /** A node as first booted. */
  ghost predicate Booted(v: Server, id: NodeId, peers: seq<NodeId>) {
    && v.id == id && v.peers == peers && v.role == Follower && v.term == 0 && !v.removed && v.snap == None
    && v.log == [ROOT] && v.base == v.commitIndex == v.lastApplied == 0 && v.disk == EMPTY_DISK
  }

  ghost function Fresh(config: map<NodeId, seq<NodeId>>): State {
    State(config, map n | n in config :: Boot(n, config[n], EMPTY_DISK), {}, {}, {}, History({}, {}, {}, {}, {}))
  }

  lemma FreshBoots(config: map<NodeId, seq<NodeId>>, n: NodeId)
    requires n in config
    ensures Booted(Fresh(config).servers[n], n, config[n])
  {
    BootLoads(n, config[n], EMPTY_DISK);
  }

  // ------------------------------------------------ a vote counted in another term

  const THREE: map<NodeId, seq<NodeId>> := map["a" := ["b", "c"], "b" := ["a", "c"], "c" := ["a", "b"]]

  lemma ThreeMesh()
    ensures FullMesh(THREE)
  {
    assert Elems(THREE["a"]) == {"b", "c"} && Elems(THREE["b"]) == {"a", "c"} && Elems(THREE["c"]) == {"a", "b"};
    assert THREE.Keys == {"a", "b", "c"};
    forall n | n in THREE ensures ListsOthers(THREE, n) {}
  }

  predicate VoteReplies(ev: Event) { ev.DeliverVoteResp? }

  /** Node a asks b in term 1 and campaigns again before the answer comes. */
  lemma StaleVote() returns (s: State)
    ensures Reachable(s, VoteReplies) && s.config == THREE && s.servers.Keys == THREE.Keys && s.returned == {}
    ensures var v := s.servers["a"];
            v.id == "a" && v.peers == THREE["a"] && v.role == Candidate && v.term == 2 && v.votes == 1
              && v.log == [ROOT] && v.base == 0
    ensures var v := s.servers["b"];
            v.id == "b" && v.peers == THREE["b"] && v.term == 1 && v.log == [ROOT] && v.base == 0 && !v.removed
    ensures Booted(s.servers["c"], "c", THREE["c"])
    ensures VoteResp("b", "a", 1, VoteReply(0, true)) in s.net
  {
    hide Reachable, StartElection, Voter, Boot;
    ThreeMesh();
    FreshBoots(THREE, "a");
    FreshBoots(THREE, "b");
    FreshBoots(THREE, "c");
    var s0 := Fresh(THREE);
    Begin(s0, VoteReplies);
    var s1 := Elect(s0, "a", VoteReplies);
    ElectFacts(s0.servers["a"]);
    assert s1.servers["a"].peers[0] == "b" && s1.servers["b"].peers[0] == "a";
    var s2 := Granted(s1, "a", "b", VoteReplies);
    VoterFacts(s1.servers["b"], "a", 1);
    s := Elect(s2, "a", VoteReplies);
    ElectFacts(s2.servers["a"]);
  }

  /** Election safety needs fresh votes: a vote of term 1, counted in term 2, gives term 2 two leaders. */
  lemma StaleVoteElectsTwo() returns (s: State)
    ensures Reachable(s, VoteReplies) && Lead("a", 2) in s.hist.leads && Lead("b", 2) in s.hist.leads
  {
    hide Reachable, StartElection, Voter, HandleVoteReply;
    var s0 := StaleVote();
    var s1 := Count(s0, VoteResp("b", "a", 1, VoteReply(0, true)), VoteReplies);
    CountFacts(s0.servers["a"], VoteReply(0, true));
    var s2 := Elect(s1, "b", VoteReplies);
    ElectFacts(s1.servers["b"]);
    assert s2.servers["b"].peers[1] == "c" && s2.servers["c"].peers[1] == "b";
    var s3 := Granted(s2, "b", "c", VoteReplies);
    VoterFacts(s2.servers["c"], "b", 2);
    s := Count(s3, VoteResp("c", "b", 2, VoteReply(0, true)), VoteReplies);
    CountFacts(s3.servers["b"], VoteReply(0, true));
  }

  // ---------------------------------------------------------- more events, one each

  lemma Win(s: State, n: NodeId, p: NodeId, q: NodeId, lifted: Event -> bool) returns (s': State)
    requires Reachable(s, lifted) && n in s.servers && p in s.servers && q in s.servers && n != p && n != q && p != q
    requires var v, x, y := s.servers[n], s.servers[p], s.servers[q];
             && !v.removed && Quorum(v) == 3 && p in v.peers && q in v.peers && Known(x, n) && Known(y, n)
             && x.term <= v.term && y.term <= v.term
             && UpToDate(LastTerm(v.log), Last(v), LastTerm(x.log), Last(x))
             && UpToDate(LastTerm(v.log), Last(v), LastTerm(y.log), Last(y))
             && E.Vote(p, v.term + 1, n) !in s.returned && E.Vote(q, v.term + 1, n) !in s.returned
    ensures var v, t := s.servers[n], s.servers[n].term + 1;
            && Reachable(s', lifted) && Grew(s, s') && s'.returned == s.returned + {E.Vote(p, t, n), E.Vote(q, t, n)}
            && n in s'.servers && s'.servers ==
               s.servers[n := s'.servers[n]][p := Voter(s.servers[p], n, t)][q := Voter(s.servers[q], n, t)]
            && var w := s'.servers[n];
               && Kept(v, w) && w.role == Leader && w.term == t
               && forall p :: p in v.peers ==> Get(w.nextIndex, p) == Last(v) + 1 && Get(w.matchIndex, p) == v.base
  {
    hide Reachable, StartElection, Voter, HandleVoteReply, UpToDate, Known;
    var t := s.servers[n].term + 1;
    var s1 := Elect(s, n, lifted);
    ElectFacts(s.servers[n]);
    var s2 := Granted(s1, n, p, lifted);
    var s3 := Granted(s2, n, q, lifted);
    var s4 := Count(s3, VoteResp(p, n, t, VoteReply(s.servers[p].term, true)), lifted);
    CountFacts(s3.servers[n], VoteReply(s.servers[p].term, true));
    s' := Count(s4, VoteResp(q, n, t, VoteReply(s.servers[q].term, true)), lifted);
    CountFacts(s4.servers[n], VoteReply(s.servers[q].term, true));
  }

  lemma Submitted(s: State, n: NodeId, cmd: Command, lifted: Event -> bool) returns (s': State)
    requires Reachable(s, lifted) && n in s.servers && s.servers[n].role == Leader && !cmd.ConfigChange?
    ensures var v := s.servers[n];
            var log := v.log + [Entry(Last(v) + 1, v.term, cmd)];
            && Reachable(s', lifted) && Grew(s, s') && s'.returned == s.returned
            && s'.servers == s.servers[n := v.(log := log, disk := v.disk.(log := log))]
  {
    hide Reachable;
    s' := Step(s, Submit(n, cmd), n, Propose(s.servers[n], cmd).0, SILENT, lifted);
  }

  lemma Sent(s: State, n: NodeId, p: NodeId, lo: nat, hi: nat, lifted: Event -> bool) returns (s': State)
    requires Reachable(s, lifted) && n in s.servers && s.servers[n].role == Leader && p in s.servers[n].peers
             && Batch(s.servers[n], p, lo, hi)
    ensures var v := s.servers[n];
            && Reachable(s', lifted) && Grew(s, s') && s'.returned == s.returned && s'.servers == s.servers
            && AppendReq(p, Request(v, v.term, lo, lo, hi)) in s'.net
  {
    hide Reachable, Request;
    var v := s.servers[n];
    s' := Step(s, SendAppend(n, p, v.term, lo, lo, hi), n, v,
               SILENT.(sent := {AppendReq(p, Request(v, v.term, lo, lo, hi))}), lifted);
  }

  lemma Appended(s: State, p: NodeId, q: AppendRequest, lifted: Event -> bool) returns (s': State)
    requires Reachable(s, lifted) && AppendReq(p, q) in s.net && p in s.servers && TightClamp(s.servers[p], q)
    ensures var (w, r) := AppendEntries(s.servers[p], q);
            && Reachable(s', lifted) && Grew(s, s') && s'.returned == s.returned
            && s'.servers == s.servers[p := w] && AppendResp(p, q, r) in s'.net
  {
    hide Reachable, AppendEntries, TightClamp;
    var (w, r) := AppendEntries(s.servers[p], q);
    s' := Step(s, DeliverAppend(AppendReq(p, q)), p, w, SILENT.(sent := {AppendResp(p, q, r)},
               accepts := if r.success then {Accept(p, q.term, q.prev + |q.entries|)} else {}), lifted);
  }

  lemma Acked(s: State, p: NodeId, q: AppendRequest, r: AppendReply, lifted: Event -> bool) returns (s': State)
    requires Reachable(s, lifted) && AppendResp(p, q, r) in s.net && q.leader in s.servers
    requires lifted(DeliverAppendResp(AppendResp(p, q, r))) || s.servers[q.leader].term == q.term
    ensures var w := HandleAppendReply(s.servers[q.leader], p, q, r);
            && Reachable(s', lifted) && Grew(s, s') && s'.returned == s.returned
            && s'.servers == s.servers[q.leader := w]
            && Commits(s.servers[q.leader], w) <= s'.hist.commits
  {
    hide Reachable, HandleAppendReply;
    s' := Step(s, DeliverAppendResp(AppendResp(p, q, r)), q.leader, HandleAppendReply(s.servers[q.leader], p, q, r),
               SILENT, lifted);
  }

  lemma Delivered(s: State, n: NodeId, lifted: Event -> bool) returns (s': State)
    requires Reachable(s, lifted) && n in s.servers && CanApply(s.servers[n])
    ensures var (w, e) := ApplyNext(s.servers[n]);
            && Reachable(s', lifted) && Grew(s, s') && s'.returned == s.returned && s'.servers == s.servers[n := w]
            && P.Applied(n, s.servers[n].lastApplied + 1, e) in s'.hist.applied
  {
    hide Reachable, ApplyNext, CanApply;
    var (w, e) := ApplyNext(s.servers[n]);
    s' := Step(s, ApplyOne(n), n, w, SILENT.(applied := {P.Applied(n, s.servers[n].lastApplied + 1, e)}), lifted);
  }

  lemma Crashed(s: State, n: NodeId, lifted: Event -> bool) returns (s': State)
    requires Reachable(s, lifted) && n in s.servers && n in s.config && lifted(Crash(n))
    ensures Reachable(s', lifted) && Grew(s, s') && s'.returned == s.returned
    ensures s'.servers == s.servers[n := Boot(n, s.config[n], s.servers[n].disk)]
  {
    hide Reachable, Boot;
    s' := Step(s, Crash(n), n, Boot(n, s.config[n], s.servers[n].disk), SILENT, lifted);
  }

  // ---------------------------------------------------- an acknowledged term, lost

  const FIVE: map<NodeId, seq<NodeId>> :=
    map["a" := ["b", "c", "d", "e"], "b" := ["a", "c", "d", "e"], "c" := ["a", "b", "d", "e"],
        "d" := ["a", "b", "c", "e"], "e" := ["a", "b", "c", "d"]]

  lemma FiveKeys()
    ensures FIVE.Keys == {"a", "b", "c", "d", "e"}
  {
  }

  lemma FiveLists(n: NodeId, xs: seq<NodeId>)
    requires n in FIVE && FIVE[n] == xs && NoRepeats(xs) && Elems(xs) == {"a", "b", "c", "d", "e"} - {n}
    ensures ListsOthers(FIVE, n)
  {
    FiveKeys();
  }

  lemma FiveMesh()
    ensures FullMesh(FIVE)
  {
    FiveKeys();
    forall n | n in FIVE ensures ListsOthers(FIVE, n) {
      var xs := FIVE[n];
      assert Elems(xs) == {xs[0], xs[1], xs[2], xs[3]};
      FiveLists(n, xs);
    }
  }

  predicate Crashes(ev: Event) { ev.Crash? }

  const NEW := Entry(1, 2, Put("k", "new"))
  const OLD := Entry(1, 1, Put("k", "old"))

  /** Node `id` of the five, in term t with this log, nothing compacted and nothing removed. */
  ghost predicate Is(v: Server, id: NodeId, t: nat, log: seq<Entry>) {
    && id in FIVE && v.id == id && v.peers == FIVE[id] && v.term == t && v.log == log && v.base == 0 && v.snap == None
    && !v.removed
    && v.lastApplied == 0 && v.disk.snap == None
  }

  ghost predicate Leads(v: Server, id: NodeId, t: nat, log: seq<Entry>, next: nat) {
    Is(v, id, t, log) && v.role == Leader && v.commitIndex == 0 && forall p :: p in FIVE[id] ==>
      Get(v.nextIndex, p) == next && Get(v.matchIndex, p) == 0
  }

  lemma Peers(id: NodeId, p: NodeId)
    requires id in FIVE && p in FIVE && id != p
    ensures p in FIVE[id] && |FIVE[id]| == 4
  {
    FiveMesh();
    assert ListsOthers(FIVE, id);
    assert p in Elems(FIVE[id]);
  }

  /** b campaigned in term 1, and c leads term 1 with an entry of its own. */
  lemma OldLeader() returns (s: State)
    ensures Reachable(s, Crashes) && s.config == FIVE && s.servers.Keys == FIVE.Keys
    ensures s.returned == {E.Vote("d", 1, "c"), E.Vote("e", 1, "c")}
    ensures Leads(s.servers["c"], "c", 1, [ROOT, OLD], 1) && Booted(s.servers["a"], "a", FIVE["a"])
    ensures Is(s.servers["b"], "b", 1, [ROOT]) && s.servers["b"].role == Candidate && s.servers["b"].commitIndex == 0
    ensures s.servers["b"].disk.term == 1 && s.servers["b"].disk.peers == FIVE["b"]
    ensures Is(s.servers["d"], "d", 1, [ROOT]) && s.servers["d"].commitIndex == 0 && Is(s.servers["e"], "e", 1, [ROOT])
    ensures VoteReq("b", "d", 1, 0, 0) in s.net
  {
    hide Reachable, Boot, StartElection, Voter, FullMesh;
    FiveMesh();
    FreshBoots(FIVE, "a"); FreshBoots(FIVE, "b"); FreshBoots(FIVE, "c"); FreshBoots(FIVE, "d"); FreshBoots(FIVE, "e");
    Peers("b", "d"); Peers("c", "d"); Peers("c", "e"); Peers("d", "c"); Peers("e", "c");
    var s0 := Fresh(FIVE);
    Begin(s0, Crashes);
    ElectFacts(s0.servers["b"]);
    var s1 := Elect(s0, "b", Crashes);
    var s2 := Ask(s1, "b", "d", 1, Crashes);
    var s3 := Win(s2, "c", "d", "e", Crashes);
    VoterFacts(s2.servers["d"], "c", 1);
    VoterFacts(s2.servers["e"], "c", 1);
    s := Submitted(s3, "c", OLD.data, Crashes);
  }

  /** ... and a leads term 2 with another. */
  lemma TwoLeaders() returns (s: State)
    ensures Reachable(s, Crashes) && s.config == FIVE && s.servers.Keys == FIVE.Keys
            && E.Vote("d", 1, "b") !in s.returned
    ensures Leads(s.servers["a"], "a", 2, [ROOT, NEW], 1) && Leads(s.servers["c"], "c", 1, [ROOT, OLD], 1)
    ensures Is(s.servers["b"], "b", 1, [ROOT]) && s.servers["b"].role == Candidate && s.servers["b"].commitIndex == 0
    ensures s.servers["b"].disk.term == 1 && s.servers["b"].disk.peers == FIVE["b"]
    ensures Is(s.servers["d"], "d", 2, [ROOT]) && s.servers["d"].commitIndex == 0
    ensures VoteReq("b", "d", 1, 0, 0) in s.net
  {
    hide Reachable, StartElection, Voter;
    Peers("a", "d"); Peers("a", "e"); Peers("d", "a"); Peers("e", "a");
    var s0 := OldLeader();
    ElectFacts(s0.servers["a"]);
    var s1 := Elect(s0, "a", Crashes);
    var s2 := Win(s1, "a", "d", "e", Crashes);
    VoterFacts(s1.servers["d"], "a", 2);
    s := Submitted(s2, "a", NEW.data, Crashes);
  }

  /** b learns of term 2 from a refused vote, and does not save it. */
  lemma TermNotSaved() returns (s: State)
    ensures Reachable(s, Crashes) && s.config == FIVE && s.servers.Keys == FIVE.Keys
    ensures Leads(s.servers["a"], "a", 2, [ROOT, NEW], 1) && Leads(s.servers["c"], "c", 1, [ROOT, OLD], 1)
    ensures Is(s.servers["b"], "b", 2, [ROOT]) && s.servers["b"].commitIndex == 0
    ensures s.servers["b"].disk.term == 1 && s.servers["b"].disk.peers == FIVE["b"]
    ensures Is(s.servers["d"], "d", 2, [ROOT]) && s.servers["d"].commitIndex == 0
  {
    hide Reachable, Leads;
    Peers("d", "b");
    var s0 := TwoLeaders();
    var s1 := HandleAsk(s0, VoteReq("b", "d", 1, 0, 0), Crashes);
    s := Count(s1, VoteResp("d", "b", 1, VoteReply(2, false)), Crashes);
  }

  /** A one-entry request at the start of the log: the entry replaces whatever conflicts with it. */
  lemma TakesFirst(v: Server, q: AppendRequest, e: Entry)
    requires Known(v, q.leader) && v.term == q.term && v.base == 0 && q.prev == 0 && q.entries == [e] && e.index == 1
             && q.commit == 0
    requires v.log == [ROOT] || (|v.log| == 2 && v.log[0] == ROOT && v.log[1].term != e.term)
    ensures AppendEntries(v, q) ==
            (v.(leader := q.leader, log := [ROOT, e], disk := v.disk.(log := [ROOT, e])), AppendReply(v.term, true))
  {
    assert q.entries[..0] == [] && Merge(v.log, 0, q.entries) == MergeOne(v.log, 0, e) == [ROOT, e];
  }

  lemma {:induction false} BelievedOneMore(ps: seq<NodeId>, p: NodeId, m: map<NodeId, nat>, n: nat)
    ensures |Believed(ps + [p], m, n)| == |Believed(ps, m, n)| + if Get(m, p) >= n then 1 else 0
  {
    assert (ps + [p])[..|ps|] == ps;
  }

  lemma {:induction false} BelievedFour(p: NodeId, q: NodeId, r: NodeId, u: NodeId, m: map<NodeId, nat>, n: nat)
    ensures |Believed([p, q, r, u], m, n)|
         == (if Get(m, p) >= n then 1 else 0) + (if Get(m, q) >= n then 1 else 0) + (if Get(m, r) >= n then 1 else 0) +
           (if Get(m, u) >= n then 1 else 0)
  {
    BelievedOneMore([p, q, r], u, m, n);
    BelievedOneMore([p, q], r, m, n);
    BelievedOneMore([p], q, m, n);
    BelievedOneMore([], p, m, n);
    assert [p, q, r] + [u] == [p, q, r, u] && [p, q] + [r] == [p, q, r] && [p] + [q] == [p, q] && [] + [p] == [p];
  }

  lemma FirstRequest(v: Server, e: Entry)
    requires v.log == [ROOT, e] && v.base == 0
    ensures Request(v, v.term, 0, 0, 1) == AppendRequest(v.id, v.term, 0, 0, [e], v.commitIndex)
  {
    assert v.log[1..2] == [e];
  }

  /** What a counts after each of the two acknowledgements. */
  lemma AckCounts(v: Server, q: AppendRequest, p: NodeId)
    requires Is(v, "a", 2, [ROOT, NEW]) && v.role == Leader && v.commitIndex == 0 && p in FIVE["a"]
    requires q.prev == 0 && q.entries == [NEW] && Get(v.matchIndex, "c") == Get(v.matchIndex, "e") == 0
    ensures var w := HandleAppendReply(v, p, q, AppendReply(2, true));
            var m := v.matchIndex[p := 1];
            && Is(w, "a", 2, [ROOT, NEW]) && w.role == Leader && w.matchIndex == m && w.nextIndex == v.nextIndex[p := 2]
            && (p in {"b", "d"} ==> w.commitIndex == if Get(m, "b") >= 1 && Get(m, "d") >= 1 then 1 else 0)
  {
    var v1 := v.(matchIndex := v.matchIndex[p := 1], nextIndex := v.nextIndex[p := 2]);
    BelievedFour("b", "c", "d", "e", v1.matchIndex, 1);
    hide Believed;
    assert CommitScan(v1, 0) == 0;
    assert CommitScan(v1, 1) == if Committable(v1, 1) then 1 else 0;
    assert Holders(v1, 1) >= Quorum(v1) <==> |Believed(v1.peers, v1.matchIndex, 1)| >= 2;
  }

  /** With b's acknowledgement a commits its entry, and b applies it. */
  lemma Acknowledged() returns (s: State)
    ensures Reachable(s, Crashes) && s.config == FIVE && s.servers.Keys == FIVE.Keys
    ensures Leads(s.servers["c"], "c", 1, [ROOT, OLD], 1) && P.Applied("b", 1, NEW) in s.hist.applied
    ensures s.servers["b"].disk == Disk(1, s.servers["b"].disk.votedFor, FIVE["b"], [ROOT, NEW], None)
  {
    hide Reachable, AppendEntries, HandleAppendReply;
    Peers("a", "b"); Peers("a", "d"); Peers("b", "a"); Peers("d", "a"); Peers("a", "c"); Peers("a", "e");
    var s0 := TermNotSaved();
    var q := AppendRequest("a", 2, 0, 0, [NEW], 0);
    FirstRequest(s0.servers["a"], NEW);
    var s1 := Sent(s0, "a", "b", 0, 1, Crashes);
    var s2 := Sent(s1, "a", "d", 0, 1, Crashes);
    TakesFirst(s2.servers["b"], q, NEW);
    TakesFirst(s2.servers["d"], q, NEW);
    var s3 := Appended(s2, "b", q, Crashes);
    var s4 := Appended(s3, "d", q, Crashes);
    AckCounts(s4.servers["a"], q, "b");
    var s5 := Acked(s4, "b", q, AppendReply(2, true), Crashes);
    AckCounts(s5.servers["a"], q, "d");
    var s6 := Acked(s5, "d", q, AppendReply(2, true), Crashes);
    s := Informed(s6);
  }

  /** a's next heartbeat tells b that the entry is committed. */
  lemma Informed(s: State) returns (s': State)
    requires Reachable(s, Crashes) && s.config == FIVE && s.servers.Keys == FIVE.Keys
    requires var v := s.servers["a"];
             Is(v, "a", 2, [ROOT, NEW]) && v.role == Leader && v.commitIndex == 1 && Get(v.nextIndex, "b") == 2
    requires var v := s.servers["b"];
             && Is(v, "b", 2, [ROOT, NEW]) && v.commitIndex == 0
             && v.disk == Disk(1, v.disk.votedFor, FIVE["b"], [ROOT, NEW], None)
    ensures Reachable(s', Crashes) && s'.config == FIVE && s'.servers.Keys == FIVE.Keys
            && s'.servers["c"] == s.servers["c"]
    ensures P.Applied("b", 1, NEW) in s'.hist.applied && s'.servers["b"].disk == s.servers["b"].disk
  {
    hide Reachable;
    Peers("a", "b"); Peers("b", "a");
    var q := AppendRequest("a", 2, 1, 2, [], 1);
    var s1 := Sent(s, "a", "b", 1, 1, Crashes);
    var s2 := Appended(s1, "b", q, Crashes);
    s' := Delivered(s2, "b", Crashes);
  }

  /**
   An applied entry is kept only if acknowledged terms are durable: b applies an entry of term 2, forgets
   that term in a crash, and lets the leader of term 1 replace the entry.
   */
  lemma LostTermUndoesApplied() returns (s: State)
    ensures Reachable(s, Crashes) && P.Applied("b", 1, NEW) in s.hist.applied && "b" in s.servers
            && !StillHolds(s.servers["b"], 1, NEW)
  {
    hide Reachable, AppendEntries, Boot;
    Peers("c", "b"); Peers("b", "c");
    var s0 := Acknowledged();
    BootLoads("b", FIVE["b"], s0.servers["b"].disk);
    var s1 := Crashed(s0, "b", Crashes);
    FirstRequest(s1.servers["c"], OLD);
    var s2 := Sent(s1, "c", "b", 0, 1, Crashes);
    var q := AppendRequest("c", 1, 0, 0, [OLD], 0);
    TakesFirst(s2.servers["b"], q, OLD);
    s := Appended(s2, "b", q, Crashes);
  }

  // ------------------------------------------------- a request without an office

  predicate Sends(ev: Event) { ev.SendAppend? && ev.prev == ev.lo }

  /** Node `id` of the three, in term t with this log. */
  ghost predicate Of3(v: Server, id: NodeId, t: nat, log: seq<Entry>) {
    && id in THREE && v.id == id && v.peers == THREE[id] && v.term == t && v.log == log && v.base == 0 && v.snap == None
    && !v.removed
    && v.lastApplied == 0
  }

  lemma Peers3(id: NodeId, p: NodeId)
    requires id in THREE && p in THREE && id != p
    ensures p in THREE[id] && |THREE[id]| == 2
  {
    ThreeMesh();
    assert ListsOthers(THREE, id);
    assert p in Elems(THREE[id]);
  }

  /** One vote is enough among three. */
  lemma WinOf3(s: State, n: NodeId, p: NodeId, lifted: Event -> bool) returns (s': State)
    requires Reachable(s, lifted) && n in s.servers && p in s.servers && n != p
    requires var v, x := s.servers[n], s.servers[p];
             && !v.removed && Quorum(v) == 2 && p in v.peers && Known(x, n) && x.term <= v.term
             && UpToDate(LastTerm(v.log), Last(v), LastTerm(x.log), Last(x)) && E.Vote(p, v.term + 1, n) !in s.returned
    ensures var v, t := s.servers[n], s.servers[n].term + 1;
            && Reachable(s', lifted) && Grew(s, s') && s'.returned == s.returned + {E.Vote(p, t, n)}
            && Lead(n, t) in s'.campaigns
            && n in s'.servers && s'.servers == s.servers[n := s'.servers[n]][p := Voter(s.servers[p], n, t)]
            && var w := s'.servers[n];
               && Kept(v, w) && w.role == Leader && w.term == t
               && forall p :: p in v.peers ==> Get(w.nextIndex, p) == Last(v) + 1 && Get(w.matchIndex, p) == v.base
  {
    hide Reachable, StartElection, Voter, HandleVoteReply, UpToDate, Known;
    var t := s.servers[n].term + 1;
    var s1 := Elect(s, n, lifted);
    ElectFacts(s.servers[n]);
    var s2 := Granted(s1, n, p, lifted);
    s' := Count(s2, VoteResp(p, n, t, VoteReply(s.servers[p].term, true)), lifted);
    CountFacts(s2.servers[n], VoteReply(s.servers[p].term, true));
  }

  /** a led term 1 and still holds its entry; b leads term 2. */
  lemma NewLeader(lifted: Event -> bool) returns (s: State)
    ensures Reachable(s, lifted) && s.servers.Keys == THREE.Keys && Lead("b", 2) in s.campaigns
    ensures Of3(s.servers["a"], "a", 1, [ROOT, OLD]) && Get(s.servers["a"].nextIndex, "c") == 1
            && s.servers["a"].commitIndex == 0
    ensures Of3(s.servers["b"], "b", 2, [ROOT]) && s.servers["b"].role == Leader && s.servers["b"].commitIndex == 0
    ensures Get(s.servers["b"].nextIndex, "c") == 1
    ensures Of3(s.servers["c"], "c", 2, [ROOT]) && s.servers["c"].commitIndex == 0
  {
    hide Reachable, Boot, Voter, FullMesh;
    ThreeMesh();
    FreshBoots(THREE, "a"); FreshBoots(THREE, "b"); FreshBoots(THREE, "c");
    Peers3("a", "b"); Peers3("b", "a"); Peers3("b", "c"); Peers3("c", "b"); Peers3("a", "c");
    var s0 := Fresh(THREE);
    Begin(s0, lifted);
    var s1 := WinOf3(s0, "a", "b", lifted);
    VoterFacts(s0.servers["b"], "a", 1);
    var s2 := Submitted(s1, "a", OLD.data, lifted);
    s := WinOf3(s2, "b", "c", lifted);
    VoterFacts(s2.servers["c"], "b", 2);
  }

  /** b's late request for a's vote makes a step down; a keeps its log and its peer indices. */
  lemma StepsDown(s: State, lifted: Event -> bool) returns (s': State)
    requires Reachable(s, lifted) && "a" in s.servers && "b" in s.servers && Lead("b", 2) in s.campaigns
    requires Of3(s.servers["a"], "a", 1, [ROOT, OLD]) && Of3(s.servers["b"], "b", 2, [ROOT, NEW])
    ensures Reachable(s', lifted) && "a" in s'.servers && s'.servers == s.servers["a" := s'.servers["a"]]
    ensures var v, w := s.servers["a"], s'.servers["a"];
            Of3(w, "a", 2, [ROOT, OLD]) && w.nextIndex == v.nextIndex && w.commitIndex == v.commitIndex
  {
    hide Reachable;
    Peers3("b", "a"); Peers3("a", "b");
    var s1 := Ask(s, "b", "a", 2, lifted);
    s' := HandleAsk(s1, VoteReq("b", "a", 2, Last(s.servers["b"]), LastTerm(s.servers["b"].log)), lifted);
  }

  /** The leader of three after one acknowledgement of its first entry. */
  lemma AckCounts3(v: Server, q: AppendRequest)
    requires Of3(v, "b", 2, [ROOT, NEW]) && v.role == Leader && v.commitIndex == 0 && q.prev == 0 && q.entries == [NEW]
    ensures var w := HandleAppendReply(v, "c", q, AppendReply(2, true));
            Of3(w, "b", 2, [ROOT, NEW]) && w.role == Leader && w.commitIndex == 1 && Get(w.nextIndex, "c") == 2
  {
    Peers3("b", "c");
    var v1 := v.(matchIndex := v.matchIndex["c" := 1], nextIndex := v.nextIndex["c" := 2]);
    BelievedOneMore(["a"], "c", v1.matchIndex, 1);
    assert ["a"] + ["c"] == v.peers;
    hide Believed;
    assert CommitScan(v1, 1) == 1;
  }

  /** b commits its entry with c, and c applies it; a, deposed, is in term 2 as well. */
  lemma Committed(lifted: Event -> bool) returns (s: State)
    ensures Reachable(s, lifted) && s.servers.Keys == THREE.Keys && P.Applied("c", 1, NEW) in s.hist.applied
    ensures Of3(s.servers["a"], "a", 2, [ROOT, OLD]) && Get(s.servers["a"].nextIndex, "c") == 1
            && s.servers["a"].commitIndex == 0
    ensures var v := s.servers["c"];
            v.id == "c" && v.peers == THREE["c"] && v.term == 2 && v.log == [ROOT, NEW] && v.base == 0
  {
    hide Reachable, AppendEntries, HandleAppendReply;
    Peers3("b", "c"); Peers3("c", "b");
    var s0 := NewLeader(lifted);
    var s1 := Submitted(s0, "b", NEW.data, lifted);
    var s2 := StepsDown(s1, lifted);
    var q := AppendRequest("b", 2, 0, 0, [NEW], 0);
    FirstRequest(s2.servers["b"], NEW);
    var s3 := Sent(s2, "b", "c", 0, 1, lifted);
    TakesFirst(s3.servers["c"], q, NEW);
    var s4 := Appended(s3, "c", q, lifted);
    AckCounts3(s4.servers["b"], q);
    var s5 := Acked(s4, "c", q, AppendReply(2, true), lifted);
    s := Applies(s5, lifted);
  }

  lemma Applies(s: State, lifted: Event -> bool) returns (s': State)
    requires Reachable(s, lifted) && "b" in s.servers && "c" in s.servers
    requires var v := s.servers["b"];
             Of3(v, "b", 2, [ROOT, NEW]) && v.role == Leader && v.commitIndex == 1 && Get(v.nextIndex, "c") == 2
    requires Of3(s.servers["c"], "c", 2, [ROOT, NEW]) && s.servers["c"].commitIndex == 0
    ensures Reachable(s', lifted) && "c" in s'.servers && s'.servers == s.servers["c" := s'.servers["c"]]
    ensures P.Applied("c", 1, NEW) in s'.hist.applied
    ensures var v := s'.servers["c"];
            v.id == "c" && v.peers == THREE["c"] && v.term == 2 && v.log == [ROOT, NEW] && v.base == 0
  {
    hide Reachable;
    Peers3("b", "c"); Peers3("c", "b");
    var s1 := Sent(s, "b", "c", 1, 1, lifted);
    var s2 := Appended(s1, "c", AppendRequest("b", 2, 1, 2, [], 1), lifted);
    s' := Delivered(s2, "c", lifted);
  }

  /**
   An applied entry is kept only if requests come from the leader of their term: a heartbeat that a node
   builds after it was deposed carries its old log in the new term, and c takes it.
   */
  lemma LateHeartbeatUndoesApplied() returns (s: State)
    ensures Reachable(s, Sends) && P.Applied("c", 1, NEW) in s.hist.applied && "c" in s.servers
            && !StillHolds(s.servers["c"], 1, NEW)
  {
    hide Reachable, AppendEntries;
    Peers3("a", "c"); Peers3("c", "a");
    var s0 := Committed(Sends);
    var v, q := s0.servers["a"], AppendRequest("a", 2, 0, 0, [OLD], 0);
    FirstRequest(v, OLD);
    var s1 := Step(s0, SendAppend("a", "c", 2, 0, 0, 1), "a", v, SILENT.(sent := {AppendReq("c", q)}), Sends);
    TakesFirst(s1.servers["c"], q, OLD);
    s := Appended(s1, "c", q, Sends);
  }

  predicate Nothing(ev: Event) { false }

  /** The assumptions leave room for runs that elect, depose, commit and apply. */
  lemma AssumedRunsApply() returns (states: seq<State>, events: seq<Event>)
    ensures AssumedRun(states, events) && P.Applied("c", 1, NEW) in states[|events|].hist.applied
  {
    var s := Committed(Nothing);
    states, events :| NearlyAssumed(states, events, Nothing) && states[|events|] == s;
  }

  // ------------------------------------------------ an acknowledgement of another term

  predicate Acks(ev: Event) { ev.DeliverAppendResp? }

  const X1 := Entry(1, 1, Put("k", "x1"))
  const X2 := Entry(2, 1, Put("k", "x2"))
  const Y1 := Entry(1, 2, Put("k", "y1"))
  const Z2 := Entry(2, 3, Put("k", "z2"))

  /** An accepted request that commits nothing. */
  lemma Takes(v: Server, q: AppendRequest, log: seq<Entry>)
    requires Known(v, q.leader) && v.term <= q.term && PrevOk(v, q.prev, q.prevTerm) && q.commit == 0
             && Merge(v.log, v.base, q.entries) == log
    ensures var (w, r) := AppendEntries(v, q);
            && r == AppendReply(v.term, true) && w.id == v.id && w.peers == v.peers && w.term == q.term && w.log == log
            && w.base == v.base
            && w.snap == v.snap && w.removed == v.removed && w.lastApplied == v.lastApplied
            && w.commitIndex == v.commitIndex
            && w.disk.snap == v.disk.snap
  {
  }

  lemma {:induction false} MergeSingle(log: seq<Entry>, e: Entry)
    ensures Merge(log, 0, [e]) == MergeOne(log, 0, e)
  {
    assert [e][..0] == [];
  }

  lemma {:induction false} MergePair(log: seq<Entry>, e: Entry, f: Entry)
    ensures Merge(log, 0, [e, f]) == MergeOne(MergeOne(log, 0, e), 0, f)
  {
    assert [e, f][..1] == [e];
    MergeSingle(log, e);
  }

  /** a leads term 1. */
  lemma FirstLeader() returns (s: State)
    ensures Reachable(s, Acks) && s.config == FIVE && s.servers.Keys == FIVE.Keys
            && s.returned == {E.Vote("d", 1, "a"), E.Vote("e", 1, "a")}
    ensures Leads(s.servers["a"], "a", 1, [ROOT], 1) && Booted(s.servers["b"], "b", FIVE["b"])
            && Booted(s.servers["c"], "c", FIVE["c"])
    ensures Is(s.servers["d"], "d", 1, [ROOT]) && s.servers["d"].commitIndex == 0 && Is(s.servers["e"], "e", 1, [ROOT])
  {
    hide Reachable, Boot, Voter, FullMesh;
    FiveMesh();
    FreshBoots(FIVE, "a"); FreshBoots(FIVE, "b"); FreshBoots(FIVE, "c"); FreshBoots(FIVE, "d"); FreshBoots(FIVE, "e");
    Peers("a", "d"); Peers("a", "e"); Peers("d", "a"); Peers("e", "a");
    var s0 := Fresh(FIVE);
    Begin(s0, Acks);
    s := Win(s0, "a", "d", "e", Acks);
    VoterFacts(s0.servers["d"], "a", 1);
    VoterFacts(s0.servers["e"], "a", 1);
  }

  /** b acknowledges two entries of a, and the answer is slow. */
  lemma SlowAck() returns (s: State)
    ensures Reachable(s, Acks) && s.config == FIVE && s.servers.Keys == FIVE.Keys
            && s.returned == {E.Vote("d", 1, "a"), E.Vote("e", 1, "a")}
    ensures Is(s.servers["a"], "a", 1, [ROOT, X1, X2]) && s.servers["a"].commitIndex == 0
    ensures Is(s.servers["b"], "b", 1, [ROOT, X1, X2]) && s.servers["b"].commitIndex == 0
    ensures Booted(s.servers["c"], "c", FIVE["c"])
    ensures Is(s.servers["d"], "d", 1, [ROOT]) && s.servers["d"].commitIndex == 0 && Is(s.servers["e"], "e", 1, [ROOT])
    ensures AppendResp("b", AppendRequest("a", 1, 0, 0, [X1, X2], 0), AppendReply(0, true)) in s.net
  {
    hide Reachable, AppendEntries;
    Peers("a", "b"); Peers("b", "a");
    var s0 := FirstLeader();
    var s1 := Submitted(s0, "a", X1.data, Acks);
    var s2 := Submitted(s1, "a", X2.data, Acks);
    var q := AppendRequest("a", 1, 0, 0, [X1, X2], 0);
    assert s2.servers["a"].log == [ROOT, X1, X2] && s2.servers["a"].log[1..3] == [X1, X2];
    var s3 := Sent(s2, "a", "b", 0, 2, Acks);
    MergePair([ROOT], X1, X2);
    Takes(s3.servers["b"], q, [ROOT, X1, X2]);
    s := Appended(s3, "b", q, Acks);
  }

  /** c leads term 2 and overwrites a's log with an entry that d takes as well. */
  lemma Overwritten() returns (s: State)
    ensures Reachable(s, Acks) && s.config == FIVE && s.servers.Keys == FIVE.Keys
    ensures s.returned == {E.Vote("d", 1, "a"), E.Vote("e", 1, "a"), E.Vote("d", 2, "c"), E.Vote("e", 2, "c")}
    ensures Is(s.servers["a"], "a", 2, [ROOT, Y1]) && s.servers["a"].commitIndex == 0
    ensures Is(s.servers["b"], "b", 1, [ROOT, X1, X2])
    ensures Is(s.servers["c"], "c", 2, [ROOT, Y1])
    ensures Is(s.servers["d"], "d", 2, [ROOT, Y1]) && s.servers["d"].commitIndex == 0
            && Is(s.servers["e"], "e", 2, [ROOT])
    ensures AppendResp("b", AppendRequest("a", 1, 0, 0, [X1, X2], 0), AppendReply(0, true)) in s.net
  {
    hide Reachable, StartElection, Voter, AppendEntries;
    Peers("c", "a"); Peers("a", "c"); Peers("c", "d"); Peers("c", "e"); Peers("d", "c"); Peers("e", "c");
    var s0 := SlowAck();
    ElectFacts(s0.servers["c"]);
    var s1 := Elect(s0, "c", Acks);
    var s2 := Win(s1, "c", "d", "e", Acks);
    VoterFacts(s1.servers["d"], "c", 2);
    VoterFacts(s1.servers["e"], "c", 2);
    var s3 := Submitted(s2, "c", Y1.data, Acks);
    FirstRequest(s3.servers["c"], Y1);
    s := Spread(s3);
  }

  lemma Spread(s: State) returns (s': State)
    requires Reachable(s, Acks) && s.servers.Keys == FIVE.Keys
    requires Is(s.servers["c"], "c", 2, [ROOT, Y1]) && s.servers["c"].role == Leader && s.servers["c"].commitIndex == 0
    requires Get(s.servers["c"].nextIndex, "a") == Get(s.servers["c"].nextIndex, "d") == 1
    requires Is(s.servers["a"], "a", 1, [ROOT, X1, X2]) && Is(s.servers["d"], "d", 2, [ROOT])
    requires s.servers["a"].commitIndex == s.servers["d"].commitIndex == 0
    ensures Reachable(s', Acks) && Grew(s, s') && s'.returned == s.returned && s'.servers.Keys == s.servers.Keys
    ensures s'.servers == s.servers["a" := s'.servers["a"]]["d" := s'.servers["d"]]
    ensures Is(s'.servers["a"], "a", 2, [ROOT, Y1]) && Is(s'.servers["d"], "d", 2, [ROOT, Y1])
    ensures s'.servers["a"].commitIndex == s'.servers["d"].commitIndex == 0
  {
    hide Reachable, AppendEntries;
    Peers("c", "a"); Peers("a", "c"); Peers("c", "d"); Peers("d", "c");
    var q := AppendRequest("c", 2, 0, 0, [Y1], 0);
    FirstRequest(s.servers["c"], Y1);
    var s1 := Sent(s, "c", "a", 0, 1, Acks);
    var s2 := Sent(s1, "c", "d", 0, 1, Acks);
    MergeSingle([ROOT, X1, X2], Y1);
    MergeSingle([ROOT], Y1);
    Takes(s2.servers["a"], q, [ROOT, Y1]);
    Takes(s2.servers["d"], q, [ROOT, Y1]);
    var s3 := Appended(s2, "a", q, Acks);
    s' := Appended(s3, "d", q, Acks);
  }

  /** A success for entries through index 2, whatever the term of the request, as a counts it in term 3. */
  lemma AckCounts5(v: Server, p: NodeId, q: AppendRequest, r: AppendReply)
    requires Is(v, "a", 3, [ROOT, Y1, Z2]) && v.role == Leader && v.commitIndex == 0 && p in {"b", "d"} && r.term <= 3
             && r.success
    requires |q.entries| > 0 && q.entries[|q.entries| - 1].index == 2
             && Get(v.matchIndex, "c") == Get(v.matchIndex, "e") == 0
    requires Get(v.matchIndex, if p == "b" then "d" else "b") in {0, 2}
    ensures var w := HandleAppendReply(v, p, q, r);
            var m := v.matchIndex[p := 2];
            && Is(w, "a", 3, [ROOT, Y1, Z2]) && w.role == Leader && w.matchIndex == m
            && w.commitIndex == if Get(m, "b") == Get(m, "d") == 2 then 2 else 0
  {
    Peers("a", "b"); Peers("a", "d");
    var v1 := v.(matchIndex := v.matchIndex[p := 2], nextIndex := v.nextIndex[p := 3]);
    BelievedFour("b", "c", "d", "e", v1.matchIndex, 2);
    hide Believed;
    assert CommitScan(v1, 0) == CommitScan(v1, 1) == 0;
    assert CommitScan(v1, 2) == if Committable(v1, 2) then 2 else 0;
    assert Holders(v1, 2) >= Quorum(v1) <==> |Believed(v1.peers, v1.matchIndex, 2)| >= 2;
  }

  /** a is back in office in term 3. */
  lemma Reelected() returns (s: State)
    ensures Reachable(s, Acks) && s.servers.Keys == FIVE.Keys && forall v :: v in s.returned ==> v.term <= 3
    ensures Leads(s.servers["a"], "a", 3, [ROOT, Y1], 2)
    ensures Is(s.servers["b"], "b", 1, [ROOT, X1, X2]) && Is(s.servers["c"], "c", 2, [ROOT, Y1])
    ensures Is(s.servers["d"], "d", 3, [ROOT, Y1]) && s.servers["d"].commitIndex == 0
            && Is(s.servers["e"], "e", 3, [ROOT])
    ensures AppendResp("b", AppendRequest("a", 1, 0, 0, [X1, X2], 0), AppendReply(0, true)) in s.net
  {
    hide Reachable, Voter;
    Peers("a", "d"); Peers("a", "e"); Peers("d", "a"); Peers("e", "a");
    var s0 := Overwritten();
    s := Win(s0, "a", "d", "e", Acks);
    VoterFacts(s0.servers["d"], "a", 3);
    VoterFacts(s0.servers["e"], "a", 3);
  }

  /** There it replicates an entry to d alone. */
  lemma BackInOffice() returns (s: State)
    ensures Reachable(s, Acks) && s.servers.Keys == FIVE.Keys && forall v :: v in s.returned ==> v.term <= 3
    ensures Is(s.servers["a"], "a", 3, [ROOT, Y1, Z2]) && s.servers["a"].role == Leader
            && s.servers["a"].commitIndex == 0
    ensures forall p :: p in FIVE["a"] ==> Get(s.servers["a"].matchIndex, p) == 0
    ensures Is(s.servers["b"], "b", 1, [ROOT, X1, X2]) && Is(s.servers["c"], "c", 2, [ROOT, Y1])
            && Is(s.servers["e"], "e", 3, [ROOT])
    ensures AppendResp("b", AppendRequest("a", 1, 0, 0, [X1, X2], 0), AppendReply(0, true)) in s.net
    ensures AppendResp("d", AppendRequest("a", 3, 1, 2, [Z2], 0), AppendReply(3, true)) in s.net
  {
    hide Reachable, AppendEntries;
    Peers("a", "d"); Peers("d", "a");
    var s0 := Reelected();
    var s1 := Submitted(s0, "a", Z2.data, Acks);
    assert s1.servers["a"].log == [ROOT, Y1, Z2] && s1.servers["a"].log[2..3] == [Z2];
    var q := AppendRequest("a", 3, 1, 2, [Z2], 0);
    var s2 := Sent(s1, "a", "d", 1, 2, Acks);
    MergeSingle([ROOT, Y1], Z2);
    Takes(s2.servers["d"], q, [ROOT, Y1, Z2]);
    s := Appended(s2, "d", q, Acks);
  }

  /** The slow answer of term 1 completes a quorum in term 3. */
  lemma MiscountedQuorum() returns (s: State)
    ensures Reachable(s, Acks) && s.servers.Keys == FIVE.Keys && Commit(3, 2, Z2) in s.hist.commits
    ensures forall v :: v in s.returned ==> v.term <= 3
    ensures Is(s.servers["b"], "b", 1, [ROOT, X1, X2]) && Is(s.servers["c"], "c", 2, [ROOT, Y1])
            && Is(s.servers["e"], "e", 3, [ROOT])
  {
    hide Reachable, HandleAppendReply;
    Peers("a", "b"); Peers("a", "c"); Peers("a", "d"); Peers("a", "e");
    var s0 := BackInOffice();
    var q, stale := AppendRequest("a", 3, 1, 2, [Z2], 0), AppendRequest("a", 1, 0, 0, [X1, X2], 0);
    AckCounts5(s0.servers["a"], "d", q, AppendReply(3, true));
    var s1 := Acked(s0, "d", q, AppendReply(3, true), Acks);
    AckCounts5(s1.servers["a"], "b", stale, AppendReply(0, true));
    s := Acked(s1, "b", stale, AppendReply(0, true), Acks);
    assert Commit(3, 2, Z2) in Commits(s1.servers["a"], s.servers["a"]);
  }

  /**
   Leader completeness needs fresh acknowledgements: a success of term 1, recorded in term 3, completes a
   quorum that does not hold the entry, and the leader of term 4 lacks what was committed in term 3.
   */
  lemma StaleAckLosesCommit() returns (s: State)
    ensures Reachable(s, Acks) && Commit(3, 2, Z2) in s.hist.commits && "c" in s.servers
    ensures s.servers["c"].role == Leader && s.servers["c"].term == 4 && !StillHolds(s.servers["c"], 2, Z2)
  {
    hide Reachable, StartElection, Voter;
    Peers("c", "b"); Peers("c", "e"); Peers("b", "c"); Peers("e", "c");
    var s0 := MiscountedQuorum();
    ElectFacts(s0.servers["c"]);
    var s1 := Elect(s0, "c", Acks);
    s := Win(s1, "c", "b", "e", Acks);
  }
}
