/**
 The node itself: the Raft struct updated in place, handler by handler, and the durable record it saves
 its term, vote and peers in. Every handler is tied to its function in `Server`.
 */
module Raft {
  import opened Types
  import Server
  import Cluster
  import Batching
  import Handlers

  datatype MetaData = MetaData(term: nat, votedFor: NodeId, peers: seq<NodeId>)

  /** What becomes of one peer in sendHeartbeats. */
  datatype Outgoing = NeedsSnapshot | Panic | Collected(q: Server.AppendRequest, all: seq<Entry>)

  const FIRST_BOOT := MetaData(0, NOBODY, [])

  /** The durable term, vote and peer list. A missing file reads as first boot. */
  class MetaStore {
    var file: Option<MetaData>

    function Record(): (r: MetaData)
      reads this
    {
      if file.Some? then file.value else FIRST_BOOT
    }

    method Save(term: nat, votedFor: NodeId, peers: seq<NodeId>)
      modifies this
      ensures Record() == MetaData(term, votedFor, peers)
    {
      var saved: seq<NodeId> := [];
      for i := 0 to |peers|
        invariant saved == peers[..i]
      {
        saved := saved + [peers[i]];
      }
      file := Some(MetaData(term, votedFor, saved));
    }

    method Load() returns (term: nat, votedFor: NodeId, peers: seq<NodeId>)
      ensures MetaData(term, votedFor, peers) == Record()
    {
      if file.None? { return 0, NOBODY, []; }
      peers := [];
      for i := 0 to |file.value.peers|
        invariant peers == file.value.peers[..i]
      {
        peers := peers + [file.value.peers[i]];
      }
      return file.value.term, file.value.votedFor, peers;
    }
  }

  lemma OneMore(m: map<NodeId, nat>, peers: seq<NodeId>, i: nat, v: nat)
    requires i < |peers|
    ensures m + Server.Each(peers[..i + 1], v) == (m + Server.Each(peers[..i], v))[peers[i] := v]
  {
    assert peers[..i + 1] == peers[..i] + [peers[i]];
  }

  class Raft {
    const id: NodeId
    const meta: MetaStore
    var peers: seq<NodeId>
    var role: Role
    var term: nat
    var votes: nat
    var votedFor: NodeId
    var leader: NodeId
    var log: seq<Entry>
    var logBaseIndex: nat
    var commitIndex: nat
    var lastApplied: nat
    var nextIndex: map<NodeId, nat>
    var matchIndex: map<NodeId, nat>
    var snapshot: Option<Server.Snapshot>
    var removedFromCluster: bool
    var logFile: seq<Entry>
    var snapshotFile: Option<Server.Snapshot>

    /** The node as a value, with what is on its disk. */
    ghost function State(): Server.Server
      reads this, meta
    {
      Server.Server(id, peers, role, term, votes, votedFor, leader, log, logBaseIndex, commitIndex, lastApplied,
                    nextIndex, matchIndex, snapshot, removedFromCluster,
                    Server.Disk(meta.Record().term, meta.Record().votedFor, meta.Record().peers, logFile, snapshotFile))
    }

    /** `New`: everything but the files on disk is rebuilt. */
    constructor (id: NodeId, initial: seq<NodeId>, meta: MetaStore, logFile: seq<Entry>,
                 snapshotFile: Option<Server.Snapshot>)
      modifies meta
      ensures this.meta == meta
      ensures State() == Server.Boot(id, initial, old(Server.Disk(meta.Record().term, meta.Record().votedFor,
                                                                  meta.Record().peers, logFile, snapshotFile)))
    {
      this.id, this.meta, this.logFile, this.snapshotFile := id, meta, logFile, snapshotFile;
      role, votes, leader, removedFromCluster := Follower, 0, NOBODY, false;
      commitIndex, lastApplied, nextIndex, matchIndex := 0, 0, map[], map[];
      var savedTerm, savedVote, savedPeers := meta.Load();
      term, votedFor := savedTerm, savedVote;
      peers := if |savedPeers| > 0 then savedPeers else initial;
      snapshot := snapshotFile;
      var entries, base := AlignLog(logFile, snapshotFile);
      log, logBaseIndex := entries, base;
      hide Server.Recovered;
      new;
      Recover();
    }

    /** `New`, once the fields are set. */
    method Recover()
      modifies `peers, `nextIndex, `matchIndex, `removedFromCluster, `role, `leader, `votedFor, `votes, `commitIndex,
        `lastApplied, meta
      ensures State() == Server.Recovered(old(State()))
    {
      hide Server.Replay, Server.Started;
      ReplayConfigChanges();
      StartProgress();
    }

    /** `New`: the log as loaded, aligned with the snapshot. */
    static method AlignLog(logFile: seq<Entry>, snapshotFile: Option<Server.Snapshot>)
      returns (entries: seq<Entry>, base: nat)
      ensures var d := Server.EMPTY_DISK.(log := logFile, snap := snapshotFile);
              entries == Server.LoadedLog(d) && base == Server.LoadedBase(d)
    {
      entries := if |logFile| == 0 then [ROOT] else logFile;
      base := entries[0].index;
      if snapshotFile.Some? {
        var sn := snapshotFile.value;
        base := sn.index;
        if entries[0].index != sn.index {
          entries := [Entry(sn.index, sn.term, Undecodable)] + entries;
        } else {
          entries := entries[0 := entries[0].(index := sn.index, term := sn.term)];
        }
      }
    }

    /** `New`: peer indices, and progress from the snapshot. */
    method StartProgress()
      modifies `nextIndex, `matchIndex, `commitIndex, `lastApplied
      ensures State() == Server.Started(old(State()))
    {
      var last := LastLogIndex();
      SetProgress(last + 1, 0);
      if snapshot.Some? {
        commitIndex := snapshot.value.index;
        lastApplied := snapshot.value.index;
      }
    }

    /** `New` and becomeLeaderLocked, the loop over the peers. */
    method SetProgress(next: nat, matched: nat)
      modifies `nextIndex, `matchIndex
      ensures State() == old(State()).(nextIndex := old(nextIndex) + Server.Each(peers, next),
                                       matchIndex := old(matchIndex) + Server.Each(peers, matched))
    {
      for i := 0 to |peers|
        modifies `nextIndex, `matchIndex
        invariant nextIndex == old(nextIndex) + Server.Each(peers[..i], next)
        invariant matchIndex == old(matchIndex) + Server.Each(peers[..i], matched)
      {
        OneMore(old(nextIndex), peers, i, next);
        OneMore(old(matchIndex), peers, i, matched);
        nextIndex := nextIndex[peers[i] := next];
        matchIndex := matchIndex[peers[i] := matched];
      }
      assert peers[..|peers|] == peers;
    }

    // ---------------------------------------------------------------- log helpers

    method LastLogIndex() returns (r: nat)
      ensures r == Server.Last(State())
    {
      if |log| == 0 { return logBaseIndex; }
      return log[|log| - 1].index;
    }

    method EntryAt(idx: nat) returns (r: Option<Entry>)
      ensures r == Types.EntryAt(log, logBaseIndex, idx)
    {
      if |log| == 0 || idx < logBaseIndex { return None; }
      var offset := idx - logBaseIndex;
      if offset >= |log| { return None; }
      return Some(log[offset]);
    }

    method Contains(xs: seq<NodeId>, x: NodeId) returns (found: bool)
      ensures found <==> x in xs
    {
      for i := 0 to |xs|
        invariant x !in xs[..i]
      {
        if xs[i] == x { return true; }
      }
      return false;
    }

    method IsKnownNode(x: NodeId) returns (known: bool)
      ensures known <==> x != NOBODY && (x == id || x in peers)
    {
      if x == NOBODY { return false; }
      if x == id { return true; }
      known := Contains(peers, x);
    }

    /** The three statements every RPC handler runs on a higher term. */
    method StepUp(t: nat)
      modifies `term, `votedFor, `role, meta
      ensures State() == Server.StepUp(old(State()), t)
    {
      if t > term {
        term := t;
        votedFor := NOBODY;
        role := Follower;
        meta.Save(term, votedFor, peers);
      }
    }

    // ------------------------------------------------------------------ elections

    method StartElection()
      modifies `role, `term, `votedFor, `votes, `leader, `nextIndex, `matchIndex, meta
      ensures State() == Server.StartElection(old(State()))
      ensures if old(removedFromCluster) then State() == old(State())
              else Handlers.Campaigns(old(State()), State(), old(term) + 1)
    {
      Handlers.ElectionIs(State());
      if removedFromCluster { return; }
      Campaign();
      votes := 1;
      var total := |peers| + 1;
      var majority := total / 2 + 1;
      if votes >= majority {
        BecomeLeader();
      }
    }

    method Campaign()
      modifies `role, `term, `votedFor, meta
      ensures State() == Server.SaveMeta(old(State()).(role := Candidate, term := old(term) + 1, votedFor := id))
    {
      role := Candidate;
      term := term + 1;
      votedFor := id;
      meta.Save(term, votedFor, peers);
    }

    method BecomeLeader()
      modifies `role, `leader, `nextIndex, `matchIndex
      ensures State() == Server.BecomeLeader(old(State()))
    {
      role := Leader;
      leader := id;
      var last := LastLogIndex();
      SetProgress(last + 1, logBaseIndex);
    }

    method RequestVote(cand: NodeId, t: nat, lastIndex: nat, lastTerm: nat) returns (r: Server.VoteReply)
      modifies `term, `votedFor, `role, meta
      ensures (State(), r) == Server.RequestVote(old(State()), cand, t, lastIndex, lastTerm)
    {
      var known := IsKnownNode(cand);
      if !known { return Server.VoteReply(term, false); }
      r := Server.VoteReply(term, false);
      if t < term { return; }
      StepUp(t);
      var myLastIndex := LastLogIndex();
      var myLastTerm := if |log| == 0 then 0 else log[|log| - 1].term;
      if !(lastTerm > myLastTerm || (lastTerm == myLastTerm && lastIndex >= myLastIndex)) { return; }
      if votedFor == NOBODY || votedFor == cand {
        votedFor := cand;
        meta.Save(term, votedFor, peers);
        r := r.(granted := true);
      }
    }

    method HandleVoteResponse(resp: Server.VoteReply)
      modifies `role, `term, `votedFor, `votes, `leader, `nextIndex, `matchIndex
      ensures State() == Server.HandleVoteReply(old(State()), resp)
    {
      if resp.term > term {
        term := resp.term;
        role := Follower;
        votedFor := NOBODY;
        return;
      }
      if role != Candidate { return; }
      if resp.granted {
        votes := votes + 1;
        var total := |peers| + 1;
        var majority := total / 2 + 1;
        if votes >= majority {
          BecomeLeader();
        }
      }
    }

    method TimeoutNow(from: NodeId, t: nat) returns (success: bool, replyTerm: nat)
      modifies `role, `term, `votedFor, `votes, `leader, `nextIndex, `matchIndex, meta
      ensures State() == Server.TimeoutNow(old(State()), from, t)
      ensures success <==> from == old(leader) && t >= old(term)
      ensures success && !removedFromCluster ==> Handlers.Campaigns(old(State()), State(), t + 1)
      ensures !success ==> State() == old(State())
      ensures replyTerm == term
    {
      Handlers.TimeoutNowIs(State(), from, t);
      if from != leader { return false, term; }
      if t < term { return false, term; }
      StepUp(t);
      StartElection();
      return true, term;
    }

    // ---------------------------------------------------------------- replication

    method AppendEntries(q: Server.AppendRequest) returns (r: Server.AppendReply)
      modifies `role, `term, `votedFor, `leader, `log, `logFile, `commitIndex, meta
      ensures (State(), r) == Server.AppendEntries(old(State()), q)
    {
      var known := IsKnownNode(q.leader);
      if !known { return Server.AppendReply(term, false); }
      r := Server.AppendReply(term, false);
      if q.term < term { return; }
      StepUp(q.term);
      leader := q.leader;
      var held := HoldsPrevious(q.prev, q.prevTerm);
      if !held { return; }
      MergeEntries(q.entries);
      LearnCommit(q.commit);
      r := r.(success := true);
    }

    /** The consistency check of AppendEntries. */
    method HoldsPrevious(prev: nat, prevTerm: nat) returns (held: bool)
      ensures held <==> Server.PrevOk(State(), prev, prevTerm)
      ensures held <==> prev == 0 || Handlers.HoldsTerm(State(), prev, prevTerm)
    {
      if prev > 0 {
        if prev < logBaseIndex { return false; }
        var entry := EntryAt(prev);
        if entry.None? || entry.value.term != prevTerm { return false; }
      }
      return true;
    }

    /** The last steps of AppendEntries: save the log, then advance the commit index. */
    method LearnCommit(leaderCommit: nat)
      modifies `logFile, `commitIndex
      ensures State() == Server.SaveLog(old(State())).(
                           commitIndex := if leaderCommit > old(commitIndex)
                                          then Min(leaderCommit, old(Server.Last(State())))
                                          else old(commitIndex))
    {
      logFile := log;
      if leaderCommit > commitIndex {
        var last := LastLogIndex();
        commitIndex := if leaderCommit < last then leaderCommit else last;
      }
    }

    /** The append loop of AppendEntries. */
    method MergeEntries(entries: seq<Entry>)
      modifies `log
      ensures log == Server.Merge(old(log), logBaseIndex, entries)
    {
      for i := 0 to |entries|
        modifies `log
        invariant log == Server.Merge(old(log), logBaseIndex, entries[..i])
      {
        var e := entries[i];
        assert entries[..i + 1][..i] == entries[..i];
        var offset: int := e.index - logBaseIndex;
        if offset < 0 { continue; }
        if offset < |log| {
          if log[offset].term != e.term {
            log := log[..offset];
          } else {
            continue;
          }
        }
        log := log + [e];
      }
      assert entries[..|entries|] == entries;
    }

    method Propose(cmd: Command) returns (index: Option<nat>)
      modifies `log, `logFile
      ensures (State(), index) == Server.Propose(old(State()), cmd)
      ensures index.Some? <==> role == Leader
      ensures index.Some? ==> log == old(log) + [Entry(index.value, term, cmd)] && index.value == Server.Last(State())
    {
      if role != Leader { return None; }
      var last := LastLogIndex();
      log := log + [Entry(last + 1, term, cmd)];
      logFile := log;
      return Some(last + 1);
    }

    /** The loop that counts the nodes believed to hold index n. */
    method CountHolders(n: nat) returns (count: nat)
      ensures count == Server.Holders(State(), n)
    {
      count := 1;
      for i := 0 to |peers|
        invariant count == 1 + |Server.Believed(peers[..i], matchIndex, n)|
      {
        assert peers[..i + 1][..i] == peers[..i];
        if Server.Get(matchIndex, peers[i]) >= n { count := count + 1; }
      }
      assert peers[..|peers|] == peers;
    }

    method UpdateCommitIndex()
      modifies `commitIndex
      ensures State() == Server.UpdateCommit(old(State()))
    {
      if role != Leader { return; }
      var total := |peers| + 1;
      var majority := total / 2 + 1;
      var n: int := LastLogIndex();
      while n > commitIndex
        modifies `commitIndex
        invariant n >= 0 && commitIndex == old(commitIndex)
        invariant Server.CommitScan(State(), Server.Last(State())) == Server.CommitScan(State(), n)
      {
        var entry := EntryAt(n);
        if entry.Some? && entry.value.term == term {
          var count := CountHolders(n);
          if count >= majority {
            commitIndex := n;
            return;
          }
        }
        n := n - 1;
      }
    }

    /**
     What sendHeartbeats does for one peer: send a snapshot, or collect all pending entries. A next index beyond the
     end of the log makes the capacity of the collecting slice negative, which panics.
     */
    method PendingFor(p: NodeId, t: nat) returns (out: Outgoing)
      ensures var next := Cluster.NextOf(State(), p);
              match out
              case NeedsSnapshot => snapshot.Some? && next <= snapshot.value.index
              case Panic => !(snapshot.Some? && next <= snapshot.value.index) && next > Server.Last(State()) + 1
              case Collected(q, all) =>
                && !(snapshot.Some? && next <= snapshot.value.index) && next <= Server.Last(State()) + 1
                && q.leader == id && q.term == t && q.prev == next - 1 && q.entries == [] && q.commit == commitIndex
                && (Shape(log, logBaseIndex) && logBaseIndex < next ==> Batching.Pending(State(), p, t, q, all))
    {
      var next := Server.Get(nextIndex, p);
      if next == 0 { next := logBaseIndex + 1; }
      if snapshot.Some? && next <= snapshot.value.index { return NeedsSnapshot; }
      var prevTerm := 0;
      var prev := EntryAt(next - 1);
      if prev.Some? { prevTerm := prev.value.term; }
      var last := LastLogIndex();
      if last - (next - 1) < 0 { return Panic; }
      var all := EntriesFrom(next);
      out := Collected(Server.AppendRequest(id, t, next - 1, prevTerm, [], commitIndex), all);
      Batching.IsPending(State(), p, t, out.q, all);
    }

    method EntriesFrom(next: nat) returns (all: seq<Entry>)
      ensures Shape(log, logBaseIndex) && logBaseIndex < next <= Server.Last(State()) + 1 ==>
                all == log[next - logBaseIndex..]
    {
      all := [];
      var last := LastLogIndex();
      var idx := next;
      while idx <= last
        invariant idx >= next
        invariant Shape(log, logBaseIndex) && logBaseIndex < next <= last + 1 ==>
                    idx <= last + 1 && all == log[next - logBaseIndex..idx - logBaseIndex]
      {
        var e := EntryAt(idx);
        if e.Some? { all := all + [e.value]; }
        idx := idx + 1;
      }
    }

    /** What sendAppendEntriesBatch does with the reply to request q. */
    method HandleAppendResponse(peer: NodeId, q: Server.AppendRequest, r: Server.AppendReply) returns (success: bool)
      modifies `term, `votedFor, `role, `nextIndex, `matchIndex, `commitIndex, meta
      ensures State() == Server.HandleAppendReply(old(State()), peer, q, r)
      ensures success <==> r.term <= old(term) && r.success && peer in peers
    {
      if r.term > term {
        StepUp(r.term);
        return false;
      }
      if !r.success {
        if snapshot.Some? && Server.Get(nextIndex, peer) <= snapshot.value.index { return false; }
        if Server.Get(nextIndex, peer) > logBaseIndex + 1 {
          nextIndex := nextIndex[peer := Server.Get(nextIndex, peer) - 1];
        }
        return false;
      }
      var exists_ := Contains(peers, peer);
      if !exists_ { return false; }
      if |q.entries| > 0 {
        var lastSent := q.entries[|q.entries| - 1].index;
        matchIndex := matchIndex[peer := lastSent];
        nextIndex := nextIndex[peer := lastSent + 1];
      } else if q.prev >= logBaseIndex {
        matchIndex := matchIndex[peer := q.prev];
        nextIndex := nextIndex[peer := q.prev + 1];
      }
      UpdateCommitIndex();
      return true;
    }

    // ------------------------------------------------------------------- snapshots

    /** The compaction loop: a boundary entry and what lies after it. */
    method CompactedLog(sn: Server.Snapshot) returns (newLog: seq<Entry>)
      ensures newLog == [Entry(sn.index, sn.term, Undecodable)] + Server.KeepAfter(log, sn.index)
    {
      newLog := [Entry(sn.index, sn.term, Undecodable)];
      for i := 0 to |log|
        invariant newLog == [Entry(sn.index, sn.term, Undecodable)] + Server.KeepAfter(log[..i], sn.index)
      {
        assert log[..i + 1][..i] == log[..i];
        if log[i].index > sn.index { newLog := newLog + [log[i]]; }
      }
      assert log[..|log|] == log;
    }

    method CompactLog(sn: Server.Snapshot)
      modifies `log, `logBaseIndex, `logFile, `snapshot, `snapshotFile
      ensures State() == Server.Compact(old(State()), sn)
    {
      SaveSnapshot(sn);
      var newLog := CompactedLog(sn);
      log := newLog;
      logBaseIndex := sn.index;
      logFile := log;
    }

    method SaveSnapshot(sn: Server.Snapshot)
      modifies `snapshot, `snapshotFile
      ensures State() == old(State()).(snap := Some(sn), disk := old(State()).disk.(snap := Some(sn)))
    {
      snapshotFile := Some(sn);
      snapshot := Some(sn);
    }

    /** createSnapshotLocked, with the bytes the snapshotter returned. */
    /** `data` is what the snapshotter returned: nothing if none is registered or it failed. */
    method CreateSnapshot(data: Option<Server.Store>, saved: bool)
      modifies `log, `logBaseIndex, `logFile, `snapshot, `snapshotFile
      ensures State() == if data.Some? && saved then Server.CreateSnapshot(old(State()), data.value) else old(State())
    {
      var entry := EntryAt(lastApplied);
      if entry.None? || data.None? || !saved { return; }
      CompactLog(Server.Snapshot(lastApplied, entry.value.term, data.value));
    }

    /** `restored` is what is handed to the restorer, if one is registered. */
    method InstallSnapshot(t: nat, sn: Server.Snapshot) returns (replyTerm: nat, restored: Option<Server.Store>)
      modifies `term, `votedFor, `role, `log, `logBaseIndex, `logFile, `snapshot, `snapshotFile
      modifies `commitIndex, `lastApplied, meta
      ensures State() == Server.InstallSnapshot(old(State()), t, sn) && replyTerm == old(term)
      ensures restored == if t < old(term) then None else Some(sn.data)
    {
      replyTerm, restored := term, None;
      if t < term { return; }
      StepUp(t);
      CompactLog(sn);
      commitIndex := sn.index;
      lastApplied := sn.index;
      restored := Some(sn.data);
    }

    // ------------------------------------------------------ configuration changes

    method ApplyConfigChange(isAdd: bool, node: NodeId)
      modifies `peers, `nextIndex, `matchIndex, `removedFromCluster, `role, `leader, `votedFor, `votes, meta
      ensures State() == Server.ApplyConfig(old(State()), isAdd, node)
      ensures isAdd && node != id && node !in old(peers) ==> Server.Get(matchIndex, node) == 0 && node in peers
      ensures !isAdd ==> node !in peers && (node == id ==> removedFromCluster && role == Follower)
    {
      Handlers.ChangeIs(State(), isAdd, node);
      if node == id {
        if !isAdd { RemoveSelf(); }
        return;
      }
      if isAdd {
        AddPeer(node);
      } else {
        RemovePeer(node);
      }
      meta.Save(term, votedFor, peers);
    }

    method RemoveSelf()
      modifies `peers, `nextIndex, `matchIndex, `removedFromCluster, `role, `leader, `votedFor, `votes, meta
      ensures State() == Server.ApplyConfig(old(State()), false, id)
    {
      removedFromCluster := true;
      StepDown();
      DropPeers();
      meta.Save(term, votedFor, peers);
    }

    method DropPeers()
      modifies `peers, `nextIndex, `matchIndex
      ensures State() == old(State()).(peers := [], nextIndex := map[], matchIndex := map[])
    {
      peers := [];
      nextIndex, matchIndex := map[], map[];
    }

    method StepDown()
      modifies `role, `leader, `votedFor, `votes
      ensures State() == old(State()).(role := Follower, leader := NOBODY, votedFor := NOBODY, votes := 0)
    {
      role := Follower;
      leader := NOBODY;
      votedFor := NOBODY;
      votes := 0;
    }

    method AddPeer(node: NodeId)
      modifies `peers, `nextIndex, `matchIndex
      ensures if node in old(peers) then State() == old(State())
              else State() == old(State()).(peers := old(peers) + [node],
                                            nextIndex := old(nextIndex)[node := old(Server.Last(State())) + 1],
                                            matchIndex := old(matchIndex)[node := 0])
    {
      var found := Contains(peers, node);
      if !found {
        var last := LastLogIndex();
        peers := peers + [node];
        nextIndex := nextIndex[node := last + 1];
        matchIndex := matchIndex[node := 0];
      }
    }

    method RemovePeer(node: NodeId)
      modifies `peers, `nextIndex, `matchIndex
      ensures peers == Server.Without(old(peers), node)
      ensures nextIndex == old(nextIndex) - {node} && matchIndex == old(matchIndex) - {node}
    {
      var newPeers: seq<NodeId> := [];
      for i := 0 to |peers|
        modifies {}
        invariant newPeers == Server.Without(peers[..i], node)
      {
        assert peers[..i + 1][..i] == peers[..i];
        if peers[i] != node { newPeers := newPeers + [peers[i]]; }
      }
      assert peers[..|peers|] == peers;
      peers := newPeers;
      nextIndex, matchIndex := nextIndex - {node}, matchIndex - {node};
    }

    method ReplayConfigChanges()
      modifies `peers, `nextIndex, `matchIndex, `removedFromCluster, `role, `leader, `votedFor, `votes, meta
      ensures State() == Server.Replay(old(State()), old(Server.Replayed(State())))
    {
      var idx := logBaseIndex + 1;
      var last := LastLogIndex();
      hide Server.ApplyCommand;
      while idx <= last
        modifies `peers, `nextIndex, `matchIndex, `removedFromCluster, `role, `leader, `votedFor, `votes, meta
        invariant logBaseIndex < idx <= Max(last, logBaseIndex) + 1
        invariant State() == Server.Replay(old(State()), idx - logBaseIndex - 1)
      {
        ReplayAt(idx);
        idx := idx + 1;
      }
    }

    method ReplayAt(idx: nat)
      requires idx > logBaseIndex
      modifies `peers, `nextIndex, `matchIndex, `removedFromCluster, `role, `leader, `votedFor, `votes, meta
      ensures State() == if idx - logBaseIndex < |log|
              then Server.ApplyCommand(old(State()), log[idx - logBaseIndex].data)
                         else old(State())
    {
      var entry := EntryAt(idx);
      if entry.Some? && entry.value.data.ConfigChange? {
        hide Server.ApplyConfig;
        ApplyConfigChange(entry.value.data.isAdd, entry.value.data.node);
      }
    }

    // ------------------------------------------------------------------ application

    /** One turn of the applier's inner loop, up to the send on the apply channel. */
    method ApplyNext() returns (sent: Option<Entry>)
      modifies `lastApplied, `peers, `nextIndex, `matchIndex, `removedFromCluster, `role, `leader, `votedFor, `votes,
        meta
      ensures sent.Some? <==> old(Server.CanApply(State()))
      ensures if sent.Some? then (State(), sent.value) == Server.ApplyNext(old(State())) else State() == old(State())
    {
      if commitIndex <= lastApplied { return None; }
      var next := lastApplied + 1;
      sent := EntryAt(next);
      if sent.None? { return; }
      lastApplied := next;
      if sent.value.data.ConfigChange? {
        ApplyConfigChange(sent.value.data.isAdd, sent.value.data.node);
      }
    }
  }
}
