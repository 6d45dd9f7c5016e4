/** Applying log entries again after a restart: the store and the peer list converge. */
module Restarting {
  import opened Types
  import opened Server
  import opened Cluster
  import opened Counting

  // -------------------------------------------------------- the last writer wins

  /** What one log entry does to one key. */
  datatype Touch<V> = Leave | Drop | Set(value: V)

  function After<V>(t: Touch<V>, x: Option<V>): Option<V> {
    match t
    case Leave => x
    case Drop => None
    case Set(v) => Some(v)
  }

  function Final<V>(ts: seq<Touch<V>>, x: Option<V>): Option<V> {
    if ts == [] then x else After(ts[|ts| - 1], Final(ts[..|ts| - 1], x))
  }

  lemma {:induction false} FinalInTwo<V>(a: seq<Touch<V>>, b: seq<Touch<V>>, x: Option<V>)
    ensures Final(a + b, x) == Final(b, Final(a, x))
  {
    if b == [] {
      assert a + b == a;
    } else {
      FinalInTwo(a, b[..|b| - 1], x);
      assert (a + b)[..|a + b| - 1] == a + b[..|b| - 1];
    }
  }

  /** Either every touch leaves the key alone, or where it started from does not matter. */
  lemma {:induction false} FinalForgets<V>(ts: seq<Touch<V>>, x: Option<V>, y: Option<V>)
    ensures if (forall i :: 0 <= i < |ts| ==> ts[i].Leave?) then Final(ts, x) == x else Final(ts, x) == Final(ts, y)
  {
    if ts != [] {
      FinalForgets(ts[..|ts| - 1], x, y);
    }
  }

  /** Entries s+1..n on top of entries 1..m do what entries 1..n do once. */
  lemma {:induction false} Reapplied<V>(ts: seq<Touch<V>>, s: nat, m: nat, n: nat, x: Option<V>)
    requires s <= m <= n <= |ts|
    ensures Final(ts[s..n], Final(ts[..m], x)) == Final(ts[..n], x)
  {
    assert ts[..n] == ts[..s] + ts[s..n] && ts[..m] == ts[..s] + ts[s..m] && ts[s..n] == ts[s..m] + ts[m..n];
    FinalInTwo(ts[..s], ts[s..n], x);
    FinalInTwo(ts[..s], ts[s..m], x);
    FinalForgets(ts[s..n], Final(ts[..m], x), Final(ts[..s], x));
    FinalForgets(ts[s..m], Final(ts[..s], x), x);
    if forall i :: 0 <= i < |ts[s..n]| ==> ts[s..n][i].Leave? {
      forall i | 0 <= i < |ts[s..m]| ensures ts[s..m][i].Leave? { assert ts[s..n][i] == ts[s..m][i]; }
      FinalForgets(ts[s..n], Final(ts[..s], x), x);
    }
  }

  /** Indices visited from 1 on, each at most one beyond the one before: forward, or back to start over. */
  ghost predicate Walk(w: seq<nat>) {
    w != [] ==> Walk(w[..|w| - 1]) && 1 <= w[|w| - 1] <= End(w[..|w| - 1]) + 1
  }

  function End(w: seq<nat>): nat { if w == [] then 0 else w[|w| - 1] }

  lemma {:induction false} WalkPart(w: seq<nat>, n: nat)
    requires Walk(w) && n <= |w|
    ensures Walk(w[..n])
  {
    if n < |w| {
      WalkPart(w[..|w| - 1], n);
      assert w[..|w| - 1][..n] == w[..n];
    } else {
      assert w[..n] == w;
    }
  }

  /** A walk passes every index up to the highest it has reached. */
  lemma {:induction false} WalkPasses(w: seq<nat>, k: nat, i: nat) returns (j: nat)
    requires Walk(w) && k < |w| && 1 <= i <= w[k]
    ensures j < |w| && w[j] == i
  {
    var front := w[..|w| - 1];
    if k < |front| {
      j := WalkPasses(front, k, i);
    } else if i == w[k] {
      j := k;
    } else {
      j := WalkPasses(front, |front| - 1, i);
    }
  }

  lemma {:induction false} LeftAlone<V>(ts: seq<Touch<V>>, a: nat, b: nat, x: Option<V>)
    requires a <= b <= |ts| && forall i :: a <= i < b ==> ts[i].Leave?
    ensures Final(ts[..b], x) == Final(ts[..a], x)
  {
    assert ts[..b] == ts[..a] + ts[a..b];
    FinalInTwo(ts[..a], ts[a..b], x);
    FinalForgets(ts[a..b], Final(ts[..a], x), x);
  }

  /**
   However often a walk over the entries went back, where it stands now is as if it had come straight:
   `done[j]` is the touch of entry `w[j]`, and no entry beyond the end of the walk touches the key.
   */
  lemma {:induction false} Rewound<V>(ts: seq<Touch<V>>, w: seq<nat>, done: seq<Touch<V>>, x: Option<V>)
    requires Walk(w) && |done| == |w| && forall j :: 0 <= j < |w| ==> 1 <= w[j] <= |ts| && done[j] == ts[w[j] - 1]
    requires End(w) <= |ts| && forall i :: End(w) <= i < |ts| ==> ts[i].Leave?
    ensures Final(done, x) == Final(ts[..End(w)], x)
  {
    if w != [] {
      var e, front := End(w), w[..|w| - 1];
      assert ts[..e][..e - 1] == ts[..e - 1];
      if ts[e - 1].Leave? {
        Rewound(ts, front, done[..|w| - 1], x);
        if End(front) >= e { LeftAlone(ts, e, End(front), x); }
      }
    }
  }

  // ----------------------------------------------------------------- the KV store

  /** One turn of the apply loop. */
  function ApplyKV(store: Store, c: Command): Store {
    match c
    case Put(k, v) => store[k := v]
    case Delete(k) => store - {k}
    case _ => store
  }

  function ApplyAll(store: Store, cs: seq<Command>): Store {
    if cs == [] then store else ApplyKV(ApplyAll(store, cs[..|cs| - 1]), cs[|cs| - 1])
  }

  class KVStore {
    var store: Store

    /** The loop that drains the apply channel. */
    method ApplyLoop(ch: seq<Entry>)
      modifies this
      ensures store == ApplyAll(old(store), Datas(ch))
    {
      for i := 0 to |ch|
        invariant store == ApplyAll(old(store), Datas(ch[..i]))
      {
        DatasOneMore(ch, i);
        match ch[i].data
        case Put(k, v) => store := store[k := v];
        case Delete(k) => store := store - {k};
        case _ =>
      }
      assert ch[..|ch|] == ch;
    }
  }

  function Datas(es: seq<Entry>): (r: seq<Command>)
    ensures |r| == |es|
    ensures forall i :: 0 <= i < |es| ==> r[i] == es[i].data
  {
    if es == [] then [] else Datas(es[..|es| - 1]) + [es[|es| - 1].data]
  }

  lemma DatasOneMore(es: seq<Entry>, i: nat)
    requires i < |es|
    ensures Datas(es[..i + 1]) == Datas(es[..i]) + [es[i].data]
    ensures Datas(es[..i + 1])[..i] == Datas(es[..i])
  {
    assert es[..i + 1][..i] == es[..i];
  }

  function Look(store: Store, k: string): Option<string> { if k in store then Some(store[k]) else None }

  function KVTouch(c: Command, k: string): Touch<string> {
    match c
    case Put(j, v) => if j == k then Set(v) else Leave
    case Delete(j) => if j == k then Drop else Leave
    case _ => Leave
  }

  function KVTouches(cs: seq<Command>, k: string): (r: seq<Touch<string>>)
    ensures |r| == |cs| && forall i :: 0 <= i < |cs| ==> r[i] == KVTouch(cs[i], k)
  {
    if cs == [] then [] else KVTouches(cs[..|cs| - 1], k) + [KVTouch(cs[|cs| - 1], k)]
  }

  lemma {:induction false} StoreByKey(store: Store, cs: seq<Command>, k: string)
    ensures Look(ApplyAll(store, cs), k) == Final(KVTouches(cs, k), Look(store, k))
  {
    if cs != [] {
      StoreByKey(store, cs[..|cs| - 1], k);
      assert KVTouches(cs, k)[..|cs| - 1] == KVTouches(cs[..|cs| - 1], k);
    }
  }

  lemma SameByKey(a: Store, b: Store)
    requires forall k :: Look(a, k) == Look(b, k)
    ensures a == b
  {
    forall k ensures k in a <==> k in b { assert Look(a, k) == Look(b, k); }
    forall k | k in a ensures a[k] == b[k] { assert Look(a, k) == Look(b, k); }
  }

  lemma {:induction false} KeyConverges(store: Store, cs: seq<Command>, s: nat, m: nat, n: nat, k: string)
    requires s <= m <= n <= |cs|
    ensures Look(ApplyAll(ApplyAll(store, cs[..m]), cs[s..n]), k) == Look(ApplyAll(store, cs[..n]), k)
  {
    hide ApplyAll, Look, Final;
    var ts := KVTouches(cs, k);
    StoreByKey(store, cs[..m], k);
    StoreByKey(store, cs[..n], k);
    StoreByKey(ApplyAll(store, cs[..m]), cs[s..n], k);
    assert KVTouches(cs[..m], k) == ts[..m] && KVTouches(cs[..n], k) == ts[..n] && KVTouches(cs[s..n], k) == ts[s..n];
    Reapplied(ts, s, m, n, Look(store, k));
  }

  /** A store that holds entries 1..m and applies s+1..n again ends as if it had applied 1..n once. */
  lemma {:induction false} StoreConverges(store: Store, cs: seq<Command>, s: nat, m: nat, n: nat)
    requires s <= m <= n <= |cs|
    ensures ApplyAll(ApplyAll(store, cs[..m]), cs[s..n]) == ApplyAll(store, cs[..n])
  {
    forall k ensures Look(ApplyAll(ApplyAll(store, cs[..m]), cs[s..n]), k) == Look(ApplyAll(store, cs[..n]), k) {
      KeyConverges(store, cs, s, m, n, k);
    }
    hide ApplyAll;
    SameByKey(ApplyAll(ApplyAll(store, cs[..m]), cs[s..n]), ApplyAll(store, cs[..n]));
  }

  // ---------------------------------------------------------------- the peer list

  /** The peer list of node `id` after one command. */
  function NextPeers(id: NodeId, peers: seq<NodeId>, c: Command): seq<NodeId> {
    if !c.ConfigChange? then peers
    else if c.node == id then if c.isAdd then peers else []
    else if !c.isAdd then Without(peers, c.node)
    else if c.node in peers then peers
    else peers + [c.node]
  }

  function PeersAfter(id: NodeId, peers: seq<NodeId>, cs: seq<Command>): seq<NodeId> {
    if cs == [] then peers else NextPeers(id, PeersAfter(id, peers, cs[..|cs| - 1]), cs[|cs| - 1])
  }

  predicate RemovesSelf(id: NodeId, c: Command) { c.ConfigChange? && !c.isAdd && c.node == id }

  predicate SelfRemoved(id: NodeId, cs: seq<Command>) { exists i :: 0 <= i < |cs| && RemovesSelf(id, cs[i]) }

  lemma SelfRemovedInTwo(id: NodeId, a: seq<Command>, b: seq<Command>)
    ensures SelfRemoved(id, a + b) <==> SelfRemoved(id, a) || SelfRemoved(id, b)
  {
    var cs := a + b;
    if i :| 0 <= i < |a| && RemovesSelf(id, a[i]) { assert RemovesSelf(id, cs[i]); }
    if i :| 0 <= i < |b| && RemovesSelf(id, b[i]) { assert RemovesSelf(id, cs[|a| + i]); }
    if i :| 0 <= i < |cs| && RemovesSelf(id, cs[i]) {
      assert if i < |a| then cs[i] == a[i] else cs[i] == b[i - |a|];
    }
  }

  lemma CommandPeers(s: Server, c: Command)
    ensures var w := ApplyCommand(s, c);
            && w.id == s.id && w.peers == NextPeers(s.id, s.peers, c)
            && w.removed == (s.removed || RemovesSelf(s.id, c))
            && w.log == s.log && w.base == s.base
  {
    hide Without;
  }

  /** The replay of k entries gives this peer list and this flag. */
  ghost predicate Replays(s: Server, w: Server, cs: seq<Command>) {
    && w.id == s.id && w.log == s.log && w.base == s.base
    && w.peers == PeersAfter(s.id, s.peers, cs) && w.removed == (s.removed || SelfRemoved(s.id, cs))
  }

  lemma OneMoreReplayed(s: Server, w: Server, cs: seq<Command>, c: Command)
    requires Replays(s, w, cs)
    ensures Replays(s, ApplyCommand(w, c), cs + [c])
  {
    CommandPeers(w, c);
    SelfRemovedInTwo(s.id, cs, [c]);
    hide ApplyCommand, NextPeers, RemovesSelf;
    assert (cs + [c])[..|cs|] == cs && [c][0] == c;
  }

  /** The replay loop of a restart is the fold over the retained entries. */
  lemma {:induction false} ReplayPeers(s: Server, k: nat)
    requires k < |s.log|
    ensures Replays(s, Replay(s, k), Datas(s.log[1..k + 1]))
  {
    if k > 0 {
      ReplayPeers(s, k - 1);
      assert Datas(s.log[1..k + 1]) == Datas(s.log[1..k]) + [s.log[k].data];
      hide ApplyCommand, PeersAfter, SelfRemoved;
      OneMoreReplayed(s, Replay(s, k - 1), Datas(s.log[1..k]), s.log[k].data);
    }
  }

  function IsPeer(peers: seq<NodeId>, x: NodeId): Option<()> { if x in peers then Some(()) else None }

  function PeerTouch(id: NodeId, c: Command, x: NodeId): Touch<()> {
    if !c.ConfigChange? then Leave
    else if c.node == id then if c.isAdd then Leave else Drop
    else if c.node != x then Leave
    else if c.isAdd then Set(()) else Drop
  }

  function PeerTouches(id: NodeId, cs: seq<Command>, x: NodeId): (r: seq<Touch<()>>)
    ensures |r| == |cs| && forall i :: 0 <= i < |cs| ==> r[i] == PeerTouch(id, cs[i], x)
  {
    if cs == [] then [] else PeerTouches(id, cs[..|cs| - 1], x) + [PeerTouch(id, cs[|cs| - 1], x)]
  }

  lemma {:induction false} PeersByName(id: NodeId, peers: seq<NodeId>, cs: seq<Command>, x: NodeId)
    ensures IsPeer(PeersAfter(id, peers, cs), x) == Final(PeerTouches(id, cs, x), IsPeer(peers, x))
  {
    if cs != [] {
      var front, c := cs[..|cs| - 1], cs[|cs| - 1];
      PeersByName(id, peers, front, x);
      assert PeerTouches(id, cs, x)[..|cs| - 1] == PeerTouches(id, front, x);
      if c.ConfigChange? { WithoutFacts(PeersAfter(id, peers, front), c.node); }
    }
  }

  /** The list stays without repeats and without the node itself. */
  lemma {:induction false} PeersStayClean(id: NodeId, peers: seq<NodeId>, cs: seq<Command>)
    requires NoRepeats(peers) && id !in peers
    ensures NoRepeats(PeersAfter(id, peers, cs)) && id !in PeersAfter(id, peers, cs)
  {
    if cs != [] {
      var front, c := cs[..|cs| - 1], cs[|cs| - 1];
      PeersStayClean(id, peers, front);
      if c.ConfigChange? { WithoutFacts(PeersAfter(id, peers, front), c.node); }
    }
  }

  /** A list saved after entries 1..m, with s+1..n applied again, names the peers that 1..n give once. */
  lemma {:induction false} PeersConverge(id: NodeId, peers: seq<NodeId>, cs: seq<Command>, s: nat, m: nat, n: nat)
    requires s <= m <= n <= |cs|
    ensures Elems(PeersAfter(id, PeersAfter(id, peers, cs[..m]), cs[s..n])) == Elems(PeersAfter(id, peers, cs[..n]))
  {
    var a, b := PeersAfter(id, PeersAfter(id, peers, cs[..m]), cs[s..n]), PeersAfter(id, peers, cs[..n]);
    forall x ensures x in a <==> x in b {
      PeerConverges(id, peers, cs, s, m, n, x);
    }
  }

  lemma {:induction false} PeerConverges(id: NodeId, peers: seq<NodeId>, cs: seq<Command>, s: nat, m: nat, n: nat,
                                         x: NodeId)
    requires s <= m <= n <= |cs|
    ensures x in PeersAfter(id, PeersAfter(id, peers, cs[..m]), cs[s..n]) <==> x in PeersAfter(id, peers, cs[..n])
  {
    hide PeersAfter, Final;
    var ts := PeerTouches(id, cs, x);
    PeersByName(id, peers, cs[..m], x);
    PeersByName(id, peers, cs[..n], x);
    PeersByName(id, PeersAfter(id, peers, cs[..m]), cs[s..n], x);
    assert PeerTouches(id, cs[..m], x) == ts[..m] && PeerTouches(id, cs[..n], x) == ts[..n]
           && PeerTouches(id, cs[s..n], x) == ts[s..n];
    Reapplied(ts, s, m, n, IsPeer(peers, x));
  }

  // ---------------------------------------------------------------- the restart

  /** The disk of a node whose log starts at base s: command i + 1 of cs sits at index i + 1. */
  ghost predicate Retains(d: Disk, s: nat, cs: seq<Command>) {
    && Shape(d.log, s) && s + |d.log| == |cs| + 1 && Datas(d.log[1..]) == cs[s..]
    && match d.snap case None => s == 0 case Some(sn) => sn.index == s
  }

  /**
   A restart replays exactly the retained commands, over the saved list, or over the initial one if none was saved.
   */
  lemma {:induction false} RestartPeers(id: NodeId, initial: seq<NodeId>, d: Disk, s: nat, cs: seq<Command>)
    requires Retains(d, s, cs)
    ensures var w := Boot(id, initial, d);
            && w.peers == PeersAfter(id, if |d.peers| > 0 then d.peers else initial, cs[s..])
            && (w.removed <==> SelfRemoved(id, cs[s..]))
  {
    var v := Loaded(id, initial, d);
    assert v.log[1..] == d.log[1..] && |v.log| == |d.log| && v.base == s;
    assert Replayed(v) == |v.log| - 1;
    assert v.log[1..|v.log|] == v.log[1..];
    hide Replay, PeersAfter;
    ReplayPeers(v, |v.log| - 1);
  }

  /**
   After a restart the node lists the peers it would list had it never stopped, and again without repeats or itself.
   */
  lemma {:induction false} RestartConverges(id: NodeId, initial: seq<NodeId>, d: Disk, peers: seq<NodeId>,
                                            cs: seq<Command>, s: nat, m: nat)
    requires Retains(d, s, cs) && s <= m <= |cs| && NoRepeats(peers) && id !in peers
    requires d.peers == PeersAfter(id, peers, cs[..m])
    requires d.peers != [] || (s == 0 && initial == peers)
    ensures var w := Boot(id, initial, d);
            Elems(w.peers) == Elems(PeersAfter(id, peers, cs)) && NoRepeats(w.peers) && id !in w.peers
  {
    hide Boot, PeersAfter, Retains;
    RestartPeers(id, initial, d, s, cs);
    assert cs[..|cs|] == cs && cs[s..|cs|] == cs[s..];
    if d.peers != [] {
      PeersConverge(id, peers, cs, s, m, |cs|);
      PeersStayClean(id, peers, cs[..m]);
      PeersStayClean(id, d.peers, cs[s..]);
    } else {
      assert cs[s..] == cs;
      PeersStayClean(id, peers, cs);
    }
  }

  /** Removal of the node itself is remembered exactly when the entry is retained, or there never was one. */
  lemma RemovalRememberedIff(id: NodeId, initial: seq<NodeId>, d: Disk, cs: seq<Command>, s: nat)
    requires Retains(d, s, cs) && s <= |cs|
    ensures Boot(id, initial, d).removed == SelfRemoved(id, cs) <==>
              (SelfRemoved(id, cs[..s]) ==> SelfRemoved(id, cs[s..]))
  {
    RestartPeers(id, initial, d, s, cs);
    hide *;
    assert cs == cs[..s] + cs[s..];
    SelfRemovedInTwo(id, cs[..s], cs[s..]);
  }

  /** A removal that was compacted away is forgotten: the node is back with its initial peers. */
  lemma {:induction false} ForgetsRemoval(id: NodeId, initial: seq<NodeId>, d: Disk)
    requires Retains(d, 1, [ConfigChange(false, id)]) && d.peers == []
    ensures PeersAfter(id, initial, [ConfigChange(false, id)]) == [] && SelfRemoved(id, [ConfigChange(false, id)])
    ensures Boot(id, initial, d).peers == initial && !Boot(id, initial, d).removed
  {
    var cs := [ConfigChange(false, id)];
    assert RemovesSelf(id, cs[0]) && cs[1..] == [];
    RestartPeers(id, initial, d, 1, cs);
  }
}
