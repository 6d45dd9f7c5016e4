/** The cluster together with every node's apply channel and store: what the stores hold, restarts included. */
module Replicas {
  import opened Types
  import opened Server
  import opened Cluster
  import opened Membership
  import opened Simulation
  import opened Safety
  import opened Restarting
  import opened Theorems
  import opened Projection
  import D = Delivery
  import N = NodeRuns
  import P = Protocol

  /** An entry handed out, with the index it was applied at. */
  datatype Taken = Taken(index: nat, entry: Entry)

  /**
   One node's way from the applier to its store. The store and what it was fed survive a crash, the rest does
   not. `intact` says that the applied index never jumped ahead of what was handed out.
   */
  datatype Pipe = Pipe(hand: Option<Taken>, queue: seq<Taken>, fed: seq<Taken>, store: Store, intact: bool)

  datatype World = World(s: State, pipes: map<NodeId, Pipe>)

  datatype Move = Raft(ev: Event) | Send(n: NodeId) | Consume(n: NodeId)

  // ---------------------------------------------------------------- what happens

  /** Everything handed out that was not lost, in order. */
  function Out(p: Pipe): seq<Taken> {
    p.fed + p.queue + if p.hand.Some? then [p.hand.value] else []
  }

  function Indices(ts: seq<Taken>): (r: seq<nat>)
    ensures |r| == |ts| && forall j :: 0 <= j < |ts| ==> r[j] == ts[j].index
  {
    if ts == [] then [] else Indices(ts[..|ts| - 1]) + [ts[|ts| - 1].index]
  }

  function Commands(ts: seq<Taken>): (r: seq<Command>)
    ensures |r| == |ts| && forall j :: 0 <= j < |ts| ==> r[j] == ts[j].entry.data
  {
    if ts == [] then [] else Commands(ts[..|ts| - 1]) + [ts[|ts| - 1].entry.data]
  }

  /** The last index handed out. */
  function Reached(ts: seq<Taken>): nat { End(Indices(ts)) }

  predicate MayMove(r: World, mv: Move) {
    match mv
    case Raft(ev) => Enabled(r.s, ev) && (ev.ApplyOne? ==> ev.n in r.pipes && r.pipes[ev.n].hand.None?)
    case Send(n) => n in r.pipes && r.pipes[n].hand.Some? && |r.pipes[n].queue| < D.CHANNEL_CAPACITY
    case Consume(n) => n in r.pipes && r.pipes[n].queue != []
  }

  /** What an event on node n does to its pipe. A crash loses what is in flight. */
  function PipeNext(s: State, ev: Event, n: NodeId, p: Pipe): Pipe
    requires Enabled(s, ev) && n in s.servers && n == NodeOf(ev)
  {
    match ev
    case ApplyOne(_) => p.(hand := Some(Taken(s.servers[n].lastApplied + 1, ApplyNext(s.servers[n]).1)))
    case Crash(_) =>
      Pipe(None, [], p.fed, p.store, p.intact && Boot(n, s.config[n], s.servers[n].disk).lastApplied <= Reached(p.fed))
    case DeliverSnapshot(m) =>
      if m.term < s.servers[n].term then p else p.(intact := p.intact && m.sn.index <= Reached(Out(p)))
    case _ => p
  }

  function Moved(r: World, mv: Move): World
    requires MayMove(r, mv)
  {
    match mv
    case Raft(ev) =>
      var n := NodeOf(ev);
      World(Next(r.s, ev), if n in r.s.servers
            && n in r.pipes then r.pipes[n := PipeNext(r.s, ev, n, r.pipes[n])] else r.pipes)
    case Send(n) =>
      var p := r.pipes[n];
      r.(pipes := r.pipes[n := p.(hand := None, queue := p.queue + [p.hand.value])])
    case Consume(n) =>
      var p := r.pipes[n];
      r.(pipes := r.pipes[n := p.(queue := p.queue[1..], fed := p.fed + [p.queue[0]],
                                  store := ApplyKV(p.store, p.queue[0].entry.data))])
  }

  // ---------------------------------------------------------------- the invariant

  ghost predicate PipeOk(s: State, n: NodeId, p: Pipe) {
    && n in s.servers
    && p.store == ApplyAll(map[], Commands(p.fed))
    && (forall t :: t in Out(p) ==> P.Applied(n, t.index, t.entry) in s.hist.applied)
    && (p.intact ==> Walk(Indices(Out(p))) && s.servers[n].lastApplied <= Reached(Out(p)))
  }

  ghost predicate PipesOk(r: World) {
    && r.pipes.Keys == r.s.servers.Keys
    && forall n {:trigger PipeOk(r.s, n, r.pipes[n])} :: n in r.pipes ==> PipeOk(r.s, n, r.pipes[n])
  }

  lemma {:induction false} OneMoreTaken(ts: seq<Taken>, t: Taken)
    ensures Indices(ts + [t]) == Indices(ts) + [t.index] && Commands(ts + [t]) == Commands(ts) + [t.entry.data]
    ensures Reached(ts + [t]) == t.index
    ensures Walk(Indices(ts)) && 1 <= t.index <= Reached(ts) + 1 ==> Walk(Indices(ts + [t]))
  {
    assert (ts + [t])[..|ts|] == ts;
    assert (Indices(ts) + [t.index])[..|ts|] == Indices(ts);
  }

  lemma {:induction false} PartTaken(ts: seq<Taken>, n: nat)
    requires n <= |ts| && Walk(Indices(ts))
    ensures Walk(Indices(ts[..n]))
  {
    hide Walk, Indices;
    WalkPart(Indices(ts), n);
    assert Indices(ts[..n]) == Indices(ts)[..n];
  }

  lemma ConsumeOk(s: State, n: NodeId, p: Pipe)
    requires PipeOk(s, n, p) && p.queue != []
    ensures PipeOk(s, n, p.(queue := p.queue[1..], fed := p.fed + [p.queue[0]],
                            store := ApplyKV(p.store, p.queue[0].entry.data)))
  {
    var q := p.(queue := p.queue[1..], fed := p.fed + [p.queue[0]], store := ApplyKV(p.store, p.queue[0].entry.data));
    assert Out(q) == Out(p);
    OneMoreTaken(p.fed, p.queue[0]);
    assert Commands(q.fed)[..|p.fed|] == Commands(p.fed);
  }

  lemma SendOk(s: State, n: NodeId, p: Pipe)
    requires PipeOk(s, n, p) && p.hand.Some?
    ensures PipeOk(s, n, p.(hand := None, queue := p.queue + [p.hand.value]))
  {
    assert Out(p.(hand := None, queue := p.queue + [p.hand.value])) == Out(p);
  }

  /** An event that neither applies, restarts nor installs leaves the applied index, and so the pipe, alone. */
  lemma SamePipe(s: State, s': State, n: NodeId, p: Pipe)
    requires PipeOk(s, n, p) && n in s'.servers && s'.servers[n].lastApplied == s.servers[n].lastApplied
    requires s.hist.applied <= s'.hist.applied
    ensures PipeOk(s', n, p)
  {
    hide Walk, Reached;
  }

  lemma ApplyOk(s: State, s': State, n: NodeId, p: Pipe, e: Entry)
    requires PipeOk(s, n, p) && p.hand.None? && n in s'.servers && s.hist.applied <= s'.hist.applied
    requires s'.servers[n].lastApplied == s.servers[n].lastApplied + 1
    requires P.Applied(n, s.servers[n].lastApplied + 1, e) in s'.hist.applied
    ensures PipeOk(s', n, p.(hand := Some(Taken(s.servers[n].lastApplied + 1, e))))
  {
    var t := Taken(s.servers[n].lastApplied + 1, e);
    assert Out(p.(hand := Some(t))) == Out(p) + [t];
    OneMoreTaken(Out(p), t);
    hide Walk, Reached, Indices;
  }

  lemma CrashOk(s: State, s': State, n: NodeId, p: Pipe)
    requires PipeOk(s, n, p) && n in s'.servers && s.hist.applied <= s'.hist.applied
    ensures PipeOk(s', n, Pipe(None, [], p.fed, p.store, p.intact && s'.servers[n].lastApplied <= Reached(p.fed)))
  {
    var q := Pipe(None, [], p.fed, p.store, p.intact && s'.servers[n].lastApplied <= Reached(p.fed));
    assert Out(q) == p.fed == Out(p)[..|p.fed|];
    if p.intact { PartTaken(Out(p), |p.fed|); }
    hide Walk, Reached, Indices;
  }

  lemma InstallOk(s: State, s': State, n: NodeId, p: Pipe)
    requires PipeOk(s, n, p) && n in s'.servers && s.hist.applied <= s'.hist.applied
    ensures PipeOk(s', n, p.(intact := p.intact && s'.servers[n].lastApplied <= Reached(Out(p))))
  {
    var q := p.(intact := p.intact && s'.servers[n].lastApplied <= Reached(Out(p)));
    assert Out(q) == Out(p);
    hide Walk, Reached, Indices;
  }

  /** What an event adds to the record of applied entries. */
  lemma AppliedRecord(s: State, ev: Event)
    requires Enabled(s, ev)
    ensures s.hist.applied <= Next(s, ev).hist.applied
    ensures ev.ApplyOne? ==>
              P.Applied(ev.n, s.servers[ev.n].lastApplied + 1, ApplyNext(s.servers[ev.n]).1) in Next(s, ev).hist.applied
  {
    hide StartElection, RequestVote, HandleVoteReply, StepUp, TransferReply, Propose, AppendEntries, HandleAppendReply;
    hide InstallSnapshot, SnapshotSent, UpdateCommit, ApplyNext, CreateSnapshot, Boot, Request, CanApply, Wins, Commits;
  }

  /** The applied index of the event's node afterwards. */
  lemma AppliedAfter(s: State, ev: Event)
    requires Static(s) && Enabled(s, ev)
    ensures NodeOf(ev) in s.servers && Next(s, ev).servers == s.servers[NodeOf(ev) := Next(s, ev).servers[NodeOf(ev)]]
    ensures var n, at := NodeOf(ev), Next(s, ev).servers[NodeOf(ev)].lastApplied;
            match ev
            case ApplyOne(_) => at == s.servers[n].lastApplied + 1
            case Crash(_) => at == Boot(n, s.config[n], s.servers[n].disk).lastApplied
            case DeliverSnapshot(m) => at == if m.term < s.servers[n].term then s.servers[n].lastApplied else m.sn.index
            case _ => at == s.servers[n].lastApplied
  {
    EventIsStep(s, ev);
    if ev.Crash? { KnowsItself(s, ev.n); }
    hide Static, Next, Boot;
    if StepOf(s, ev).Some? { N.AppliedMoves(s.servers[NodeOf(ev)], StepOf(s, ev).value); }
  }

  lemma PipeNextOk(s: State, ev: Event, p: Pipe)
    requires Static(s) && Enabled(s, ev) && PipeOk(s, NodeOf(ev), p) && (ev.ApplyOne? ==> p.hand.None?)
    ensures PipeOk(Next(s, ev), NodeOf(ev), PipeNext(s, ev, NodeOf(ev), p))
  {
    var s', n := Next(s, ev), NodeOf(ev);
    AppliedRecord(s, ev);
    AppliedAfter(s, ev);
    hide Next, PipeOk, Out, Reached, Static, ApplyNext, Boot;
    match ev
    case ApplyOne(_) => ApplyOk(s, s', n, p, ApplyNext(s.servers[n]).1);
    case Crash(_) => CrashOk(s, s', n, p);
    case DeliverSnapshot(m) =>
      if m.term < s.servers[n].term { SamePipe(s, s', n, p); } else { InstallOk(s, s', n, p); }
    case _ => SamePipe(s, s', n, p);
  }

  /** A change of node n leaves the other pipes alone. */
  lemma OthersOk(r: World, s': State, n: NodeId, w: Server, p: Pipe)
    requires PipesOk(r) && n in r.s.servers && s'.servers == r.s.servers[n := w] && r.s.hist.applied <= s'.hist.applied
    requires PipeOk(s', n, p)
    ensures PipesOk(World(s', r.pipes[n := p]))
  {
    hide PipeOk;
    forall k | k in r.pipes && k != n ensures PipeOk(s', k, r.pipes[k]) {
      SamePipe(r.s, s', k, r.pipes[k]);
    }
  }

  lemma EventOk(r: World, ev: Event)
    requires PipesOk(r) && Static(r.s) && MayMove(r, Raft(ev))
    ensures PipesOk(Moved(r, Raft(ev)))
  {
    assert Enabled(r.s, ev);
    hide Next, PipeOk, Static, PipeNext, Enabled;
    AppliedRecord(r.s, ev);
    AppliedAfter(r.s, ev);
    var n := NodeOf(ev);
    assert PipeOk(r.s, n, r.pipes[n]);
    PipeNextOk(r.s, ev, r.pipes[n]);
    OthersOk(r, Next(r.s, ev), n, Next(r.s, ev).servers[n], PipeNext(r.s, ev, n, r.pipes[n]));
  }

  lemma MoveOk(r: World, mv: Move)
    requires PipesOk(r) && Static(r.s) && MayMove(r, mv)
    ensures PipesOk(Moved(r, mv))
  {
    hide PipeOk, Static, Next, PipeNext;
    match mv
    case Raft(ev) => EventOk(r, ev);
    case Send(n) => SendOk(r.s, n, r.pipes[n]);
    case Consume(n) => ConsumeOk(r.s, n, r.pipes[n]);
  }

  // --------------------------------------------------------------------- the runs

  /** First boot of every node, with empty stores. */
  ghost predicate Begins(r: World) {
    Init(r.s) && r.pipes == (map n | n in r.s.config :: Pipe(None, [], [], map[], true))
  }

  ghost predicate Goes(rs: seq<World>, ms: seq<Move>, i: int) {
    && 0 <= i < |ms| && i + 1 < |rs| && MayMove(rs[i], ms[i]) && rs[i + 1] == Moved(rs[i], ms[i])
    && (ms[i].Raft? ==> Assumed(rs[i].s, ms[i].ev))
  }

  /** An assumed run of the cluster, with the channels and stores of its nodes. */
  ghost predicate WorldRun(rs: seq<World>, ms: seq<Move>) {
    && |rs| == |ms| + 1 && Begins(rs[0])
    && forall i {:trigger Goes(rs, ms, i)} :: 0 <= i < |ms| ==> Goes(rs, ms, i)
  }

  lemma BeginsOk(r: World)
    requires Begins(r)
    ensures PipesOk(r)
  {
    hide FullMesh;
    forall n | n in r.pipes ensures PipeOk(r.s, n, r.pipes[n]) { FirstBoot(r.s, n); }
  }

  lemma MoveRefines(r: World, mv: Move, a: P.State) returns (a': P.State)
    requires MayMove(r, mv) && (mv.Raft? ==> Assumed(r.s, mv.ev)) && Refines(r.s, a) && PipesOk(r)
    ensures Refines(Moved(r, mv).s, a') && PipesOk(Moved(r, mv))
  {
    StaticHolds(r.s, a);
    hide Refines, Static, PipesOk, Next, PipeNext, Assumed;
    MoveOk(r, mv);
    a' := a;
    if mv.Raft? { a' := NextRefines(r.s, mv.ev, a); }
  }

  lemma StaticHolds(s: State, a: P.State)
    requires Refines(s, a)
    ensures Static(s)
  {
  }

  lemma {:induction false} RunOk(rs: seq<World>, ms: seq<Move>, i: nat) returns (a: P.State)
    requires WorldRun(rs, ms) && i < |rs|
    ensures Refines(rs[i].s, a) && PipesOk(rs[i])
  {
    if i == 0 {
      BeginsOk(rs[0]);
      InitRefines(rs[0].s);
      a := Start(rs[0].s.config);
    } else {
      var b := RunOk(rs, ms, i - 1);
      assert Goes(rs, ms, i - 1);
      hide Refines, PipesOk, MayMove, Moved, Assumed;
      a := MoveRefines(rs[i - 1], ms[i - 1], b);
    }
  }

  // ------------------------------------------------------------------- the stores

  /** The store has been fed up to, and not beyond, the index it was fed last. */
  ghost predicate AtFront(p: Pipe) {
    forall t :: t in p.fed ==> t.index <= Reached(p.fed)
  }

  /** Node n applied these entries at indices 1, 2, ... */
  ghost predicate AppliedAll(h: History, n: NodeId, es: seq<Entry>) {
    forall i :: 0 <= i < |es| ==> P.Applied(n, i + 1, es[i]) in h.applied
  }

  /** The entries at indices 1..k, from a walk that passes them. */
  lemma {:induction false} Collect(fed: seq<Taken>, k: nat) returns (cs: seq<Entry>)
    requires Walk(Indices(fed)) && k <= Reached(fed)
    ensures |cs| == k && forall j :: 0 <= j < k ==> Taken(j + 1, cs[j]) in fed
  {
    hide Walk, Indices;
    if k == 0 {
      cs := [];
    } else {
      var front := Collect(fed, k - 1);
      var j := WalkPasses(Indices(fed), |fed| - 1, k);
      cs := front + [fed[j].entry];
      assert fed[j] == Taken(k, cs[k - 1]);
    }
  }

  /** Fed along a walk, a store holds what feeding it once, in order, gives. */
  lemma {:induction false} StoreOfWalk(fed: seq<Taken>, cs: seq<Entry>)
    requires Walk(Indices(fed)) && |cs| == Reached(fed)
    requires forall k :: 0 <= k < |fed| ==> 1 <= fed[k].index <= |cs| && fed[k].entry == cs[fed[k].index - 1]
    ensures ApplyAll(map[], Commands(fed)) == ApplyAll(map[], Datas(cs))
  {
    forall k ensures Look(ApplyAll(map[], Commands(fed)), k) == Look(ApplyAll(map[], Datas(cs)), k) {
      KeyOfWalk(fed, cs, k);
    }
    hide ApplyAll;
    SameByKey(ApplyAll(map[], Commands(fed)), ApplyAll(map[], Datas(cs)));
  }

  lemma {:induction false} KeyOfWalk(fed: seq<Taken>, cs: seq<Entry>, k: string)
    requires Walk(Indices(fed)) && |cs| == Reached(fed)
    requires forall k :: 0 <= k < |fed| ==> 1 <= fed[k].index <= |cs| && fed[k].entry == cs[fed[k].index - 1]
    ensures Look(ApplyAll(map[], Commands(fed)), k) == Look(ApplyAll(map[], Datas(cs)), k)
  {
    hide Walk, ApplyAll, Look, Final, KVTouch, Indices, Commands, Datas, KVTouches;
    var ts := KVTouches(Datas(cs), k);
    StoreByKey(map[], Commands(fed), k);
    StoreByKey(map[], Datas(cs), k);
    Rewound(ts, Indices(fed), KVTouches(Commands(fed), k), Look(map[], k));
    assert ts[..|ts|] == ts;
  }

  /**
   Restarts and all, an intact store at its front is the fold of the entries its node applied, each once and in order.
   */
  lemma StoreIsFold(rs: seq<World>, ms: seq<Move>, i: nat, n: NodeId) returns (cs: seq<Entry>)
    requires WorldRun(rs, ms) && i < |rs| && n in rs[i].pipes && rs[i].pipes[n].intact && AtFront(rs[i].pipes[n])
    ensures |cs| == Reached(rs[i].pipes[n].fed) && AppliedAll(rs[i].s.hist, n, cs)
    ensures rs[i].pipes[n].store == ApplyAll(map[], Datas(cs))
  {
    var a := RunOk(rs, ms, i);
    cs := FoldOf(rs[i], a, n);
  }

  lemma FoldOf(r: World, a: P.State, n: NodeId) returns (cs: seq<Entry>)
    requires Refines(r.s, a) && PipesOk(r) && n in r.pipes && r.pipes[n].intact && AtFront(r.pipes[n])
    ensures |cs| == Reached(r.pipes[n].fed) && AppliedAll(r.s.hist, n, cs)
    ensures r.pipes[n].store == ApplyAll(map[], Datas(cs))
  {
    hide PipesOk, PipeOk, Refines, ApplyAll, Reached, Walk, Indices, Commands, Datas;
    var p := r.pipes[n];
    PipeIsOk(r, n);
    FedFacts(r.s, n, p);
    cs := Collect(p.fed, Reached(p.fed));
    FedAgrees(r.s, a, n, p.fed, cs);
    StoreOfWalk(p.fed, cs);
  }

  lemma PipeIsOk(r: World, n: NodeId)
    requires PipesOk(r) && n in r.pipes
    ensures PipeOk(r.s, n, r.pipes[n])
  {
  }

  lemma FedFacts(s: State, n: NodeId, p: Pipe)
    requires PipeOk(s, n, p) && p.intact
    ensures Walk(Indices(p.fed)) && p.store == ApplyAll(map[], Commands(p.fed))
    ensures forall t :: t in p.fed ==> P.Applied(n, t.index, t.entry) in s.hist.applied
  {
    hide Walk, Indices, ApplyAll, Commands, Reached;
    assert Out(p)[..|p.fed|] == p.fed;
    PartTaken(Out(p), |p.fed|);
    forall t | t in p.fed ensures t in Out(p) { }
  }

  /** What was fed agrees with the entries collected from it, so they are what node n applied. */
  lemma {:induction false} FedAgrees(s: State, a: P.State, n: NodeId, fed: seq<Taken>, cs: seq<Entry>)
    requires Refines(s, a) && Walk(Indices(fed)) && (forall t :: t in fed ==> t.index <= |cs|)
    requires forall t :: t in fed ==> P.Applied(n, t.index, t.entry) in s.hist.applied
    requires forall j :: 0 <= j < |cs| ==> Taken(j + 1, cs[j]) in fed
    ensures AppliedAll(s.hist, n, cs)
    ensures forall k :: 0 <= k < |fed| ==> 1 <= fed[k].index <= |cs| && fed[k].entry == cs[fed[k].index - 1]
  {
    hide Refines, Walk, Indices;
    FirstIsOne(fed);
    forall j | 0 <= j < |cs| ensures P.Applied(n, j + 1, cs[j]) in s.hist.applied {
      var t := Taken(j + 1, cs[j]); assert t in fed;
    }
    forall k | 0 <= k < |fed| ensures fed[k].entry == cs[fed[k].index - 1] {
      AgreesAt(s, a, n, fed, fed[k], cs[fed[k].index - 1]);
    }
  }

  lemma AgreesAt(s: State, a: P.State, n: NodeId, fed: seq<Taken>, t: Taken, e: Entry)
    requires Refines(s, a) && t in fed && Taken(t.index, e) in fed
    requires forall t :: t in fed ==> P.Applied(n, t.index, t.entry) in s.hist.applied
    ensures t.entry == e
  {
    hide Refines;
    var u := Taken(t.index, e);
    AppliedAgree(s, a, P.Applied(n, t.index, t.entry), P.Applied(n, u.index, u.entry));
  }

  lemma {:induction false} FirstIsOne(fed: seq<Taken>)
    requires Walk(Indices(fed))
    ensures forall k :: 0 <= k < |fed| ==> fed[k].index >= 1
  {
    forall k | 0 <= k < |fed| ensures fed[k].index >= 1 {
      PartTaken(fed, k + 1);
      assert fed[..k + 1][..k] == fed[..k];
    }
  }

  /**
   Replicas agree: two intact stores at their fronts, fed up to the same index, are equal, whatever crashed in
   between.
   */
  lemma ReplicasAgree(rs: seq<World>, ms: seq<Move>, i: nat, n: NodeId, m: NodeId)
    requires WorldRun(rs, ms) && i < |rs| && n in rs[i].pipes && m in rs[i].pipes
    requires var p, q := rs[i].pipes[n], rs[i].pipes[m];
             p.intact && q.intact && AtFront(p) && AtFront(q) && Reached(p.fed) == Reached(q.fed)
    ensures rs[i].pipes[n].store == rs[i].pipes[m].store
  {
    var a := RunOk(rs, ms, i);
    var xs := FoldOf(rs[i], a, n);
    var ys := FoldOf(rs[i], a, m);
    hide Refines, PipesOk, ApplyAll, Reached, AtFront;
    forall k | 0 <= k < |xs| ensures xs[k] == ys[k] {
      AppliedAgree(rs[i].s, a, P.Applied(n, k + 1, xs[k]), P.Applied(m, k + 1, ys[k]));
    }
    assert xs == ys;
  }

  // -------------------------------------------------------- runs without snapshots

  ghost predicate Unsnapped(v: Server) { v.snap.None? && v.disk.snap.None? }

  /** No node has a snapshot, and none is on its way. */
  ghost predicate NoSnapshot(s: State) {
    && (forall n {:trigger s.servers[n]} :: n in s.servers ==> Unsnapped(s.servers[n]))
    && forall m :: m in s.net ==> !m.SnapReq?
  }

  /** A restart without a snapshot applies from the beginning. */
  lemma RestartUnsnapped(s: State, n: NodeId)
    requires Static(s) && n in s.servers && Unsnapped(s.servers[n])
    ensures n in s.config
    ensures var w := Boot(n, s.config[n], s.servers[n].disk); Unsnapped(w) && w.lastApplied == 0
  {
    assert ServerStatic(s.config, n, s.servers[n]);
    BootLoads(n, s.config[n], s.servers[n].disk);
    hide Boot, Static;
  }

  lemma StepUnsnapped(v: Server, step: N.Step)
    requires Unsnapped(v) && !step.Snap? && !step.Install? && !step.Restart?
    ensures Unsnapped(N.Take(v, step))
  {
    match step
    case Append(q) => N.AppendStore(v, q); hide AppendEntries;
    case Submit(_) =>
    case Replied(_, _, _) => N.IndexStep(v, step);
    case Count => N.IndexStep(v, step);
    case SnapshotDone(_, _) => N.IndexStep(v, step);
    case Apply => N.IndexStep(v, step);
    case _ => N.BallotStep(v, step);
  }

  lemma NothingSent(s: State, ev: Event)
    requires Enabled(s, ev) && !ev.SendSnapshot?
    ensures forall m :: m in Next(s, ev).net && m.SnapReq? ==> m in s.net
  {
    hide StartElection, RequestVote, HandleVoteReply, StepUp, TransferReply, Propose, AppendEntries, HandleAppendReply;
    hide InstallSnapshot, SnapshotSent, UpdateCommit, ApplyNext, CreateSnapshot, Boot, Request, CanApply, Wins, Commits;
  }

  lemma ServerUnsnapped(s: State, ev: Event)
    requires Static(s) && Enabled(s, ev) && NoSnapshot(s) && !ev.Snap?
    ensures !ev.SendSnapshot? && NodeOf(ev) in s.servers && Unsnapped(Next(s, ev).servers[NodeOf(ev)])
    ensures Next(s, ev).servers == s.servers[NodeOf(ev) := Next(s, ev).servers[NodeOf(ev)]]
  {
    EventIsStep(s, ev);
    hide Next, Static, Boot, N.Take, CanApply, Batch;
    var n := NodeOf(ev);
    assert !ev.DeliverSnapshot?;
    if ev.Crash? {
      RestartUnsnapped(s, n);
      KnowsItself(s, n);
      RestartTaken(s.servers[n], s.config[n]);
    } else if StepOf(s, ev).Some? {
      StepUnsnapped(s.servers[n], StepOf(s, ev).value);
    }
  }

  lemma RestartTaken(v: Server, initial: seq<NodeId>)
    ensures N.Take(v, N.Restart(initial)) == Boot(v.id, initial, v.disk)
  {
    hide Boot;
  }

  ghost predicate AllIntact(r: World) {
    NoSnapshot(r.s) && forall n {:trigger r.pipes[n]} :: n in r.pipes ==> r.pipes[n].intact
  }

  lemma NextUnsnapped(s: State, ev: Event)
    requires Static(s) && Enabled(s, ev) && NoSnapshot(s) && !ev.Snap?
    ensures NodeOf(ev) in s.servers && NoSnapshot(Next(s, ev))
  {
    hide Static, Enabled, Next;
    ServerUnsnapped(s, ev);
    NothingSent(s, ev);
  }

  lemma PipeAllIntact(s: State, ev: Event, p: Pipe)
    requires Static(s) && Enabled(s, ev) && NoSnapshot(s) && NodeOf(ev) in s.servers && p.intact
    ensures PipeNext(s, ev, NodeOf(ev), p).intact
  {
    hide Static, Enabled, Boot, Reached, ApplyNext;
    NoInstall(s, ev);
    if ev.Crash? { RestartUnsnapped(s, ev.n); }
  }

  lemma EventAllIntact(r: World, ev: Event)
    requires AllIntact(r) && PipesOk(r) && Static(r.s) && MayMove(r, Raft(ev)) && !ev.Snap?
    ensures AllIntact(Moved(r, Raft(ev)))
  {
    assert Enabled(r.s, ev);
    hide Next, PipesOk, Static, PipeNext, Enabled, NoSnapshot;
    NextUnsnapped(r.s, ev);
    if NodeOf(ev) in r.pipes { PipeAllIntact(r.s, ev, r.pipes[NodeOf(ev)]); }
  }

  lemma NoInstall(s: State, ev: Event)
    requires Enabled(s, ev) && NoSnapshot(s)
    ensures !ev.DeliverSnapshot?
  {
  }

  lemma MoveAllIntact(r: World, mv: Move)
    requires AllIntact(r) && PipesOk(r) && Static(r.s) && MayMove(r, mv) && !(mv.Raft? && mv.ev.Snap?)
    ensures AllIntact(Moved(r, mv))
  {
    if mv.Raft? {
      EventAllIntact(r, mv.ev);
    }
    hide PipesOk, Static, Next, PipeNext;
  }

  lemma {:induction false} RunAllIntact(rs: seq<World>, ms: seq<Move>, i: nat)
    requires WorldRun(rs, ms) && i < |rs| && forall k :: 0 <= k < i && ms[k].Raft? ==> !ms[k].ev.Snap?
    ensures AllIntact(rs[i])
  {
    if i == 0 {
      forall n | n in rs[0].s.servers ensures Unsnapped(rs[0].s.servers[n]) { FirstBoot(rs[0].s, n); }
    } else {
      RunAllIntact(rs, ms, i - 1);
      var a := RunOk(rs, ms, i - 1);
      StaticHolds(rs[i - 1].s, a);
      assert Goes(rs, ms, i - 1);
      hide Refines, PipesOk, MayMove, Moved, Assumed, Static, AllIntact;
      MoveAllIntact(rs[i - 1], ms[i - 1]);
    }
  }

  /**
   Where no snapshotter is registered, as in the daemon, no snapshot is ever taken, every store stays intact, and
   stores at their fronts fed up to the same index are equal.
   */
  lemma UnsnappedReplicasAgree(rs: seq<World>, ms: seq<Move>, i: nat, n: NodeId, m: NodeId)
    requires WorldRun(rs, ms) && i < |rs| && n in rs[i].pipes && m in rs[i].pipes
    requires forall k :: 0 <= k < i && ms[k].Raft? ==> !ms[k].ev.Snap?
    requires var p, q := rs[i].pipes[n], rs[i].pipes[m]; AtFront(p) && AtFront(q) && Reached(p.fed) == Reached(q.fed)
    ensures rs[i].pipes[n].intact && rs[i].pipes[n].store == rs[i].pipes[m].store
  {
    RunAllIntact(rs, ms, i);
    hide WorldRun, AtFront, Reached;
    ReplicasAgree(rs, ms, i, n, m);
  }
}
