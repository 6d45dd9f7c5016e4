/** From the applier through the apply channel to the store, and the waits it releases. */
module Delivery {
  import opened Types
  import opened Server
  import opened Merging
  import opened NodeRuns
  import Compaction
  import H = Handlers

  const CHANNEL_CAPACITY: nat := 128

  /** Where the applier is: outside its lock with an entry to send, back from the send, or looking for work. */
  datatype Phase = Idle | Holding(entry: Entry) | Sent

  /** A wait on an index: the id-th one since the start. */
  datatype Call = Call(index: nat, id: nat)

  /**
   A node and what it has handed out since it started. `waiters` has one call per index, a later one in place of
   an earlier one. `mark` and `from` are the length of the output and the applied index when the last snapshot
   was installed, `peak` the highest applied index since the start.
   */
  datatype Applier = Applier(
    s: Server, phase: Phase, queue: seq<Entry>, consumed: seq<Entry>, waiters: map<nat, nat>, released: set<Call>,
    calls: nat, mark: nat, from: nat, peak: nat)

  datatype Event =
    | Pick
    | Send
    | Settle(snapshot: Option<Store>)
    | Consume
    | Wait(i: nat)
    | Other(step: Step)

  /** Everything handed out, in order: consumed, in the channel, in the applier's hand. */
  function Output(a: Applier): seq<Entry> {
    a.consumed + a.queue + if a.phase.Holding? then [a.phase.entry] else []
  }

  predicate Enabled(a: Applier, ev: Event) {
    match ev
    case Pick => a.phase.Idle? && CanApply(a.s)
    case Send => a.phase.Holding? && |a.queue| < CHANNEL_CAPACITY
    case Settle(_) => a.phase.Sent?
    case Consume => a.queue != []
    case Wait(_) => true
    case Other(step) => !step.Apply?
  }

  /** The node changes to w. */
  function With(a: Applier, w: Server): Applier {
    a.(s := w, peak := Max(a.peak, w.lastApplied))
  }

  function Next(a: Applier, ev: Event): Applier
    requires Enabled(a, ev)
  {
    match ev
    case Pick => var (w, e) := ApplyNext(a.s); With(a, w).(phase := Holding(e))
    case Send => a.(phase := Sent, queue := a.queue + [a.phase.entry])
    case Settle(snapshot) =>
      var i := a.s.lastApplied;
      a.(phase := Idle, waiters := a.waiters - {i},
         released := a.released + if i in a.waiters then {Call(i, a.waiters[i])} else {},
         s := if snapshot.Some? then CreateSnapshot(a.s, snapshot.value) else a.s)
    case Consume => a.(queue := a.queue[1..], consumed := a.consumed + [a.queue[0]])
    case Wait(i) =>
      if i <= a.s.lastApplied then a.(released := a.released + {Call(i, a.calls)}, calls := a.calls + 1)
      else a.(waiters := a.waiters[i := a.calls], calls := a.calls + 1)
    case Other(step) =>
      var w := Take(a.s, step);
      if step.Restart? then Applier(w, Idle, [], [], map[], {}, 0, 0, w.lastApplied, w.lastApplied)
      else if step.Install? && step.t >= a.s.term then With(a, w).(mark := |Output(a)|, from := w.lastApplied)
      else With(a, w)
  }

  /** No request that is accepted contradicts an applied entry. Every event of an assumed run is such a step. */
  ghost predicate Safe(s: Server, step: Step) {
    && Orderly(s, step)
    && (step.Append? && AppendEntries(s, step.q).1.success ==> ConflictsAbove(s, step.q, s.lastApplied))
  }

  /** The request conflicts with the log only above index c. */
  ghost predicate ConflictsAbove(s: Server, q: AppendRequest, c: nat) {
    forall k :: 0 <= k < |q.entries| && Conflicts(s.log, s.base, q.entries[k]) ==> q.entries[k].index > c
  }

  // ------------------------------------------------------------------ the invariant

  /** The k-th entry handed out since the mark is the entry of index from + 1 + k, as long as the log holds it. */
  ghost predicate InPlace(a: Applier, k: nat) {
    var out, i := Output(a), a.from + 1 + k;
    a.mark + k < |out| ==>
      && out[a.mark + k].index == i
      && (i > a.s.base ==> EntryAt(a.s.log, a.s.base, i) == Some(out[a.mark + k]))
  }

  ghost predicate InOrder(a: Applier) {
    && Tidy(a.s) && a.s.base <= a.s.lastApplied <= Last(a.s)
    && a.from <= a.s.lastApplied
    && |Output(a)| == a.mark + (a.s.lastApplied - a.from)
    && forall k {:trigger InPlace(a, k)} :: InPlace(a, k)
  }

  /** Steps that leave the applied entries and the applied index alone keep the order. */
  lemma SameApplied(a: Applier, b: Applier)
    requires InOrder(a) && Tidy(b.s) && b.s.lastApplied == a.s.lastApplied
             && a.s.base <= b.s.base <= b.s.lastApplied <= Last(b.s)
    requires Output(b) == Output(a) && b.mark == a.mark && b.from == a.from
    requires forall i :: b.s.base < i <= a.s.lastApplied ==>
               EntryAt(b.s.log, b.s.base, i) == EntryAt(a.s.log, a.s.base, i)
    ensures InOrder(b)
  {
    forall k ensures InPlace(b, k) { assert InPlace(a, k); }
  }

  lemma PickInOrder(a: Applier)
    requires InOrder(a) && Enabled(a, Pick)
    ensures InOrder(Next(a, Pick))
  {
    var b, i := Next(a, Pick), a.s.lastApplied + 1;
    var e := EntryAt(a.s.log, a.s.base, i).value;
    ConfigKeepsStore(a.s.(lastApplied := i), e.data);
    AppliedFacts(a.s);
    hide ApplyNext;
    assert b.s.lastApplied == i && SameStore(a.s, b.s);
    assert Output(b) == Output(a) + [e];
    forall k ensures InPlace(b, k) { assert InPlace(a, k); }
  }

  lemma AppliedFacts(s: Server)
    requires CanApply(s)
    ensures var (w, e) := ApplyNext(s);
            w.lastApplied == s.lastApplied + 1 && SameStore(s, w)
              && Some(e) == EntryAt(s.log, s.base, s.lastApplied + 1)
  {
  }

  lemma ChannelInOrder(a: Applier, ev: Event)
    requires InOrder(a) && Enabled(a, ev) && (ev.Send? || ev.Consume? || ev.Wait?)
    ensures InOrder(Next(a, ev))
  {
    var b := Next(a, ev);
    assert Output(b) == Output(a);
    hide Output;
    SameApplied(a, b);
  }

  lemma CutKeeps(s: Server, sn: Snapshot, i: nat)
    requires Shape(s.log, s.base) && s.base <= sn.index < i
    ensures EntryAt(Compact(s, sn).log, sn.index, i) == EntryAt(s.log, s.base, i)
  {
    Compaction.KeepAfterIsSuffix(s.log, s.base, sn.index);
  }

  /** A snapshot of the applied entries leaves the entries after it in place. */
  lemma SnapKeeps(s: Server, data: Store)
    requires Tidy(s) && s.base <= s.lastApplied <= Last(s)
    ensures var w := CreateSnapshot(s, data);
            && Tidy(w) && w.lastApplied == s.lastApplied && s.base <= w.base <= w.lastApplied <= Last(w)
            && forall i :: w.base < i ==> EntryAt(w.log, w.base, i) == EntryAt(s.log, s.base, i)
  {
    var sn := Snapshot(s.lastApplied, EntryAt(s.log, s.base, s.lastApplied).value.term, data);
    CompactIsTidy(s, sn);
    forall i | sn.index < i ensures EntryAt(Compact(s, sn).log, sn.index, i) == EntryAt(s.log, s.base, i) {
      CutKeeps(s, sn, i);
    }
    hide KeepAfter;
  }

  lemma SettleInOrder(a: Applier, snapshot: Option<Store>)
    requires InOrder(a) && Enabled(a, Settle(snapshot))
    ensures InOrder(Next(a, Settle(snapshot)))
  {
    if snapshot.Some? { SnapKeeps(a.s, snapshot.value); }
    hide CreateSnapshot, InPlace;
    SameApplied(a, Next(a, Settle(snapshot)));
  }

  lemma AppendKeeps(s: Server, q: AppendRequest)
    requires Tidy(s) && s.base <= s.lastApplied <= Last(s) && Safe(s, Append(q))
    ensures var w := AppendEntries(s, q).0;
            && Tidy(w) && w.lastApplied == s.lastApplied && w.base == s.base && w.lastApplied <= Last(w)
            && forall i :: s.base < i <= s.lastApplied ==> EntryAt(w.log, w.base, i) == EntryAt(s.log, s.base, i)
  {
    hide AppendEntries, Merge;
    AppendIsTidy(s, q);
    AppendStore(s, q);
    if AppendEntries(s, q).1.success { MergeKeepsThrough(s.log, s.base, q.prev, q.entries, s.lastApplied); }
  }

  /** Every other step of the node within one life and between installs. */
  lemma StepKeeps(s: Server, step: Step)
    requires Tidy(s) && s.base <= s.lastApplied <= Last(s) && Safe(s, step) && !step.Apply? && !step.Restart?
             && !step.Install?
    ensures var w := Take(s, step);
            && Tidy(w) && w.lastApplied == s.lastApplied && s.base <= w.base <= w.lastApplied <= Last(w)
            && forall i :: w.base < i <= s.lastApplied ==> EntryAt(w.log, w.base, i) == EntryAt(s.log, s.base, i)
  {
    StepIsTidy(s, step);
    if step.Append? {
      AppendKeeps(s, step.q);
    } else if step.Snap? {
      SnapKeeps(s, step.data);
    } else if step.Submit? {
    } else {
      hide Take;
      if step.Replied? || step.Count? || step.SnapshotDone? {
        IndexStep(s, step);
      } else {
        BallotStep(s, step);
      }
    }
  }

  /** A restart or an install starts over: nothing handed out since, and the log reaches what is applied. */
  lemma StartOver(s: Server, step: Step)
    requires Tidy(s) && Safe(s, step) && (step.Restart? || (step.Install? && step.t >= s.term))
    ensures var w := Take(s, step);
            Tidy(w) && w.base == w.lastApplied <= Last(w)
  {
    StepIsTidy(s, step);
    if step.Restart? {
      var v := Loaded(s.id, step.initial, s.disk);
      ReplayKeepsStore(v, Replayed(v));
      ReplayKeepsApplied(v, Replayed(v));
      hide Replay;
    } else {
      hide Compact;
    }
  }

  lemma {:induction false} ReplayKeepsApplied(s: Server, k: nat)
    ensures Replay(s, k).lastApplied == s.lastApplied
  {
    if k > 0 { ReplayKeepsApplied(s, k - 1); }
  }

  lemma OtherInOrder(a: Applier, step: Step)
    requires InOrder(a) && Enabled(a, Other(step)) && Safe(a.s, step)
    ensures InOrder(Next(a, Other(step)))
  {
    hide Take, Tidy, Safe;
    var b := Next(a, Other(step));
    if step.Restart? || (step.Install? && step.t >= a.s.term) {
      StartOver(a.s, step);
      forall k ensures InPlace(b, k) {}
    } else if step.Install? {
      StaleInstall(a.s, step);
      hide InPlace;
      SameApplied(a, b);
    } else {
      StepKeeps(a.s, step);
      hide InPlace;
      SameApplied(a, b);
    }
  }

  lemma StaleInstall(s: Server, step: Step)
    requires step.Install? && step.t < s.term
    ensures Take(s, step) == s
  {
  }

  // --------------------------------------------------------------------- whole runs

  ghost predicate Allowed(a: Applier, ev: Event) {
    Enabled(a, ev) && (ev.Other? ==> Safe(a.s, ev.step))
  }

  lemma NextInOrder(a: Applier, ev: Event)
    requires InOrder(a) && Allowed(a, ev)
    ensures InOrder(Next(a, ev))
  {
    hide Next, InOrder, Safe;
    match ev
    case Pick => PickInOrder(a);
    case Settle(snapshot) => SettleInOrder(a, snapshot);
    case Other(step) => OtherInOrder(a, step);
    case _ => ChannelInOrder(a, ev);
  }

  /** First boot. */
  function AtStart(id: NodeId, initial: seq<NodeId>): Applier {
    Applier(Boot(id, initial, EMPTY_DISK), Idle, [], [], map[], {}, 0, 0, 0, 0)
  }

  /** A node from first boot on, with its applier and its store. */
  ghost predicate ApplierRun(states: seq<Applier>, events: seq<Event>) {
    && |states| == |events| + 1
    && (exists id, initial :: states[0] == AtStart(id, initial))
    && forall i :: 0 <= i < |events| ==> Allowed(states[i], events[i]) && states[i + 1] == Next(states[i], events[i])
  }

  lemma {:induction false} RunInOrder(states: seq<Applier>, events: seq<Event>, i: nat)
    requires ApplierRun(states, events) && i < |states|
    ensures InOrder(states[i])
  {
    hide Next, Allowed, InPlace, Boot;
    if i == 0 {
      var id, initial :| states[0] == AtStart(id, initial);
      FirstApplier(id, initial);
    } else {
      RunInOrder(states, events, i - 1);
      NextInOrder(states[i - 1], events[i - 1]);
    }
  }

  lemma FirstApplier(id: NodeId, initial: seq<NodeId>)
    ensures InOrder(AtStart(id, initial))
  {
    FirstBootIsTidy(id, initial);
    var v := Loaded(id, initial, EMPTY_DISK);
    ReplayKeepsStore(v, Replayed(v));
    ReplayKeepsApplied(v, Replayed(v));
    hide Replay;
    var a := AtStart(id, initial);
    forall k ensures InPlace(a, k) {}
  }

  /**
   In order, exactly once: since the last start or install, the store's input followed by what is still in
   flight is the log from there through lastApplied, index by index.
   */
  lemma DeliveredInOrder(states: seq<Applier>, events: seq<Event>, i: nat, k: nat)
    requires ApplierRun(states, events) && i < |states|
    ensures var a := states[i];
            && |Output(a)| == a.mark + (a.s.lastApplied - a.from)
            && (k < a.s.lastApplied - a.from ==>
                  var e := Output(a)[a.mark + k];
                  e.index == a.from + 1 + k && (e.index > a.s.base ==> EntryAt(a.s.log, a.s.base, e.index) == Some(e)))
  {
    RunInOrder(states, events, i);
    hide ApplierRun, Output;
    assert InPlace(states[i], k);
  }

  // ------------------------------------------------------------------------- waits

  /**
   A wait that was released was applied at some time since the start. One that is pending is for a later
   index, or for the one being handed out, or a snapshot install jumped over it.
   */
  ghost predicate WaitsOk(a: Applier) {
    && a.s.lastApplied <= a.peak
    && (forall c :: c in a.released ==> c.index <= a.peak)
    && (forall i :: i in a.waiters ==>
          i > a.s.lastApplied || (i == a.s.lastApplied && !a.phase.Idle?) || i <= a.from)
  }

  lemma OtherWaits(a: Applier, step: Step)
    requires InOrder(a) && WaitsOk(a) && Enabled(a, Other(step)) && Safe(a.s, step)
    ensures WaitsOk(Next(a, Other(step)))
  {
    if step.Restart? {
      hide Take;
    } else if step.Install? {
      hide Compact;
    } else {
      StepKeeps(a.s, step);
      hide Take, InPlace, Tidy;
    }
  }

  lemma NextWaits(a: Applier, ev: Event)
    requires InOrder(a) && WaitsOk(a) && Allowed(a, ev)
    ensures WaitsOk(Next(a, ev))
  {
    hide InOrder, Safe, Take, ApplyNext, CreateSnapshot;
    match ev
    case Pick => AppliedFacts(a.s);
    case Settle(snapshot) => SettleApplied(a.s, snapshot);
    case Other(step) => OtherWaits(a, step);
    case _ =>
  }

  lemma SettleApplied(s: Server, snapshot: Option<Store>)
    ensures snapshot.Some? ==> CreateSnapshot(s, snapshot.value).lastApplied == s.lastApplied
  {
    hide KeepAfter;
  }

  /** A wait released by an event is for an index the node has applied by then. */
  lemma ReleasedWhenApplied(a: Applier, ev: Event, c: Call)
    requires Enabled(a, ev) && c in Next(a, ev).released && c !in a.released
    ensures c.index <= Next(a, ev).s.lastApplied
    ensures ev.Wait? || (ev.Settle? && c.index == Next(a, ev).s.lastApplied)
  {
    hide Take, ApplyNext, CreateSnapshot;
    if ev.Settle? { SettleApplied(a.s, ev.snapshot); }
  }

  lemma {:induction false} RunWaits(states: seq<Applier>, events: seq<Event>, i: nat)
    requires ApplierRun(states, events) && i < |states|
    ensures WaitsOk(states[i])
  {
    hide Next, Allowed, Boot, InOrder;
    if i == 0 {
      var id, initial :| states[0] == AtStart(id, initial);
      BootsUnapplied(id, initial);
    } else {
      RunInOrder(states, events, i - 1);
      RunWaits(states, events, i - 1);
      NextWaits(states[i - 1], events[i - 1]);
    }
  }

  lemma BootsUnapplied(id: NodeId, initial: seq<NodeId>)
    ensures Boot(id, initial, EMPTY_DISK).lastApplied == 0
  {
    var v := Loaded(id, initial, EMPTY_DISK);
    ReplayKeepsStore(v, Replayed(v));
    ReplayKeepsApplied(v, Replayed(v));
    hide Replay;
  }

  /**
   A wait is released only once lastApplied has reached its index, at the very event that releases it,
   and a pending wait is never overlooked unless an install jumped over it.
   */
  lemma WaitsInOrder(states: seq<Applier>, events: seq<Event>, i: nat, c: Call)
    requires ApplierRun(states, events) && i < |events|
    ensures c in states[i + 1].released && c !in states[i].released ==> c.index <= states[i + 1].s.lastApplied
    ensures WaitsOk(states[i]) && WaitsOk(states[i + 1])
  {
    hide Next, Boot, InOrder;
    RunWaits(states, events, i);
    RunWaits(states, events, i + 1);
    if c in states[i + 1].released && c !in states[i].released { ReleasedWhenApplied(states[i], events[i], c); }
  }

  // ------------------------------------------------------------- no wait is lost

  predicate Waits(a: Applier, c: Call) { c.index in a.waiters && a.waiters[c.index] == c.id }

  /** Released, or still to be. */
  predicate Kept(a: Applier, c: Call) { c in a.released || Waits(a, c) }

  /** A later wait on the same index takes the place of c. */
  predicate Replaces(a: Applier, ev: Event, c: Call) {
    ev == Wait(c.index) && Waits(a, c) && c.index > a.s.lastApplied
  }

  /** Ids are used once, and a call that waits was not released. */
  ghost predicate CallsOk(a: Applier) {
    && (forall c :: c in a.released ==> c.id < a.calls)
    && (forall i :: i in a.waiters ==> a.waiters[i] < a.calls && Call(i, a.waiters[i]) !in a.released)
  }

  /** Back from the send, the applier releases the call that waits on the applied index, and no other. */
  lemma SettleReleases(a: Applier, snapshot: Option<Store>, c: Call)
    requires Enabled(a, Settle(snapshot))
    ensures var b := Next(a, Settle(snapshot));
            && (Waits(a, c) && c.index == a.s.lastApplied ==> c in b.released && !Waits(b, c))
            && (c.index != a.s.lastApplied ==> (c in b.released <==> c in a.released) && (Waits(b, c) <==> Waits(a, c)))
  {
    hide CreateSnapshot;
  }

  lemma NextCalls(a: Applier, ev: Event)
    requires CallsOk(a) && Enabled(a, ev)
    ensures CallsOk(Next(a, ev)) && (!Restarts(ev) ==> a.calls <= Next(a, ev).calls)
  {
    hide Take, ApplyNext, CreateSnapshot;
  }

  predicate Restarts(ev: Event) { ev.Other? && ev.step.Restart? }

  /** A call that was made stays kept exactly until one replaces it. */
  lemma NextKeeps(a: Applier, ev: Event, c: Call)
    requires CallsOk(a) && Enabled(a, ev) && !Restarts(ev) && c.id < a.calls
    ensures Kept(Next(a, ev), c) <==> Kept(a, c) && !Replaces(a, ev, c)
  {
    hide Take, ApplyNext, CreateSnapshot;
  }

  lemma {:induction false} RunCalls(states: seq<Applier>, events: seq<Event>, i: nat)
    requires ApplierRun(states, events) && i < |states|
    ensures CallsOk(states[i])
  {
    hide Next, Allowed, Boot;
    if i > 0 {
      RunCalls(states, events, i - 1);
      assert Enabled(states[i - 1], events[i - 1]) by {
        assert Allowed(states[i - 1], events[i - 1]); AllowedFacts(states[i - 1], events[i - 1]);
      }
      NextCalls(states[i - 1], events[i - 1]);
    }
  }

  lemma AllowedFacts(a: Applier, ev: Event)
    requires Allowed(a, ev)
    ensures Enabled(a, ev)
  {
  }

  ghost predicate ReplacedAt(states: seq<Applier>, events: seq<Event>, m: int, c: Call) {
    0 <= m < |events| && m < |states| && Replaces(states[m], events[m], c)
  }

  /** No wait is lost: until the node restarts it is released or pending, if and only if none took its place. */
  lemma {:induction false} WaitKeptIff(states: seq<Applier>, events: seq<Event>, j: nat, i: nat)
    requires ApplierRun(states, events) && j < i < |states| && events[j].Wait?
    requires forall k :: j <= k < i ==> !Restarts(events[k])
    ensures var c := Call(events[j].i, states[j].calls);
            && c.id < states[i].calls
            && (Kept(states[i], c) <==> forall m :: j < m < i ==> !ReplacedAt(states, events, m, c))
  {
    var c := Call(events[j].i, states[j].calls);
    hide Next, Allowed, Boot;
    AllowedFacts(states[i - 1], events[i - 1]);
    RunCalls(states, events, i - 1);
    NextCalls(states[i - 1], events[i - 1]);
    if i == j + 1 {
      WaitIsKept(states[j], c.index);
    } else {
      WaitKeptIff(states, events, j, i - 1);
      NextKeeps(states[i - 1], events[i - 1], c);
      assert ReplacedAt(states, events, i - 1, c) <==> Replaces(states[i - 1], events[i - 1], c);
    }
  }

  lemma WaitIsKept(a: Applier, i: nat)
    ensures var b := Next(a, Wait(i)); Kept(b, Call(i, a.calls)) && a.calls < b.calls
  {
  }

  // ------------------------------------------------ from a proposal to its release

  /** The entry of index k has been handed out since the last start or install. */
  ghost predicate HandedOut(a: Applier, k: nat, e: Entry) {
    && a.from < k && a.mark + (k - a.from - 1) < |Output(a)|
    && Output(a)[a.mark + (k - a.from - 1)] == e && e.index == k
  }

  /** What is released was handed out, or an install put the applied index at or beyond it. */
  lemma ReleasedIsHandedOut(states: seq<Applier>, events: seq<Event>, i: nat, c: Call) returns (e: Entry)
    requires ApplierRun(states, events) && i < |events|
    requires c in states[i + 1].released && c !in states[i].released
    ensures var b := states[i + 1];
            || c.index <= b.from
            || (HandedOut(b, c.index, e) && (c.index <= b.s.base || EntryAt(b.s.log, b.s.base, c.index) == Some(e)))
  {
    hide Next, Boot;
    AllowedFacts(states[i], events[i]);
    ReleasedWhenApplied(states[i], events[i], c);
    RunInOrder(states, events, i + 1);
    hide ApplierRun, Output;
    var b := states[i + 1];
    e := ROOT;
    if c.index > b.from {
      assert InPlace(b, c.index - b.from - 1);
      e := Output(b)[b.mark + (c.index - b.from - 1)];
    }
  }

  /** The index a proposal returns lies beyond everything applied, so that a wait on it is not released at once. */
  lemma ProposalIsLater(states: seq<Applier>, events: seq<Event>, j: nat, cmd: Command)
    requires ApplierRun(states, events) && j < |events| && events[j] == Other(Submit(cmd)) && states[j].s.role == Leader
    ensures var b, k := states[j + 1], Propose(states[j].s, cmd).1.value;
            && b.s.lastApplied < k && EntryAt(b.s.log, b.s.base, k) == Some(Entry(k, states[j].s.term, cmd))
            && Waits(Next(b, Wait(k)), Call(k, b.calls)) && Call(k, b.calls) !in Next(b, Wait(k)).released
  {
    RunInOrder(states, events, j);
    RunCalls(states, events, j + 1);
    H.ProposeIs(states[j].s, cmd);
    hide Boot, InPlace, Propose;
  }

  /** Neither a restart nor an accepted install. */
  predicate Ordinary(a: Applier, ev: Event) {
    ev.Other? ==> !ev.step.Restart? && !(ev.step.Install? && ev.step.t >= a.s.term)
  }

  lemma OrdinaryKeeps(a: Applier, ev: Event)
    requires Enabled(a, ev) && Ordinary(a, ev)
    ensures Next(a, ev).mark == a.mark && Next(a, ev).from == a.from
  {
    hide Take, ApplyNext, CreateSnapshot;
  }

  lemma {:induction false} SameMark(states: seq<Applier>, events: seq<Event>, j: nat, i: nat)
    requires ApplierRun(states, events) && j <= i < |states|
    requires forall k :: j <= k < i ==> Ordinary(states[k], events[k])
    ensures states[i].mark == states[j].mark && states[i].from == states[j].from
  {
    hide Next, Allowed, Boot, Ordinary;
    if j < i {
      SameMark(states, events, j, i - 1);
      AllowedFacts(states[i - 1], events[i - 1]);
      OrdinaryKeeps(states[i - 1], events[i - 1]);
    }
  }

  /**
   From a proposal to its acknowledgement: with no restart or install in between, a wait on the index the proposal
   returned is released only after an entry of that index was handed out, and after the proposal.
   */
  lemma ProposalAcked(states: seq<Applier>, events: seq<Event>, j: nat, i: nat, cmd: Command,
                      c: Call) returns (e: Entry)
    requires ApplierRun(states, events) && j < i < |events|
    requires events[j] == Other(Submit(cmd)) && Propose(states[j].s, cmd).1 == Some(c.index)
    requires forall k :: j <= k <= i ==> Ordinary(states[k], events[k])
    requires c in states[i + 1].released && c !in states[i].released
    ensures HandedOut(states[i + 1], c.index, e)
            && |Output(states[j + 1])| <= states[i + 1].mark + (c.index - states[i + 1].from - 1)
  {
    H.ProposeIs(states[j].s, cmd);
    ProposalIsLater(states, events, j, cmd);
    RunInOrder(states, events, j + 1);
    SameMark(states, events, j + 1, i + 1);
    e := ReleasedIsHandedOut(states, events, i, c);
    hide ApplierRun, Output, Propose, Ordinary;
  }
}
