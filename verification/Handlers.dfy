/** What the handlers answer, said of the node's own fields. */
module Handlers {
  import opened Types
  import opened Server
  import opened Cluster

  // ------------------------------------------------------------- who is listened to

  /** Neither the node itself nor one of its peers; the empty name never is. */
  predicate Stranger(s: Server, x: NodeId) { x == NOBODY || (x != s.id && x !in s.peers) }

  /** A stranger gets no vote and no entry in, and moves no term. */
  lemma StrangersRefused(s: Server, x: NodeId, t: nat, lastIndex: nat, lastTerm: nat, q: AppendRequest)
    requires Stranger(s, x) && q.leader == x
    ensures RequestVote(s, x, t, lastIndex, lastTerm) == (s, VoteReply(s.term, false))
    ensures AppendEntries(s, q) == (s, AppendReply(s.term, false))
  {
  }

  /** The voter's last entry is not later than the candidate's. */
  predicate NotBehind(s: Server, lastIndex: nat, lastTerm: nat) {
    var own := if |s.log| == 0 then 0 else s.log[|s.log| - 1].term;
    var end := if |s.log| == 0 then s.base else s.log[|s.log| - 1].index;
    lastTerm > own || (lastTerm == own && lastIndex >= end)
  }

  /** A vote is granted exactly to a member of a current term that is not behind, by a node free to vote for it. */
  lemma VoteIff(s: Server, x: NodeId, t: nat, lastIndex: nat, lastTerm: nat)
    ensures var (w, r) := RequestVote(s, x, t, lastIndex, lastTerm);
            && r.term == s.term
            && (r.granted <==>
                  && !Stranger(s, x) && t >= s.term && NotBehind(s, lastIndex, lastTerm)
                  && (t > s.term || s.votedFor == NOBODY || s.votedFor == x))
            && w.term == (if Stranger(s, x) || t < s.term then s.term else t)
            && (r.granted ==> w.votedFor == w.disk.votedFor == x && w.term == w.disk.term == t)
            && (r.granted ==> w.disk.peers == s.peers)
            && (!r.granted ==> w.votedFor == if w.term > s.term then NOBODY else s.votedFor)
            && (w.term > s.term ==> w.role == Follower && w.disk.term == t && w.disk.votedFor == w.votedFor)
            && (w.term == s.term ==> w.role == s.role)
            && w.log == s.log && w.commitIndex == s.commitIndex && w.lastApplied == s.lastApplied
  {
  }

  /** The log holds an entry of this term at this index, which is not below its base. */
  predicate HoldsTerm(s: Server, i: nat, t: nat) {
    s.base <= i && i - s.base < |s.log| && s.log[i - s.base].term == t
  }

  /** A request is accepted exactly from a member of a current term after an entry the node holds, or from the start. */
  lemma AppendIff(s: Server, q: AppendRequest)
    ensures var (w, r) := AppendEntries(s, q);
            && r.term == s.term
            && (r.success <==>
                  !Stranger(s, q.leader) && q.term >= s.term && (q.prev == 0 || HoldsTerm(s, q.prev, q.prevTerm)))
            && w.term == (if Stranger(s, q.leader) || q.term < s.term then s.term else q.term)
            && w.leader == (if Stranger(s, q.leader) || q.term < s.term then s.leader else q.leader)
            && w.role == (if w.term > s.term then Follower else s.role)
            && w.votedFor == (if w.term > s.term then NOBODY else s.votedFor)
            && (w.term > s.term ==> w.disk.term == w.term && w.disk.votedFor == NOBODY)
            && (!r.success ==> w.log == s.log && w.disk.log == s.disk.log && w.commitIndex == s.commitIndex)
            && (r.success ==> w.disk.log == w.log)
            && (r.success && q.commit > s.commitIndex ==>
                  w.commitIndex <= q.commit && w.commitIndex <= Last(w) && w.commitIndex in {q.commit, Last(w)})
            && (r.success && q.commit <= s.commitIndex ==> w.commitIndex == s.commitIndex)
            && w.lastApplied == s.lastApplied
  {
    hide Merge;
  }

  // ------------------------------------------------------------------ elections

  /** In office: leading, with nothing pending for any peer and every peer believed to hold the base. */
  ghost predicate InOffice(s: Server, w: Server) {
    && w.role == Leader && w.leader == s.id
    && forall p :: p in s.peers ==> NextOf(w, p) == Last(w) + 1 && Get(w.matchIndex, p) == s.base
  }

  /** w campaigns in term t: its vote for itself is saved, and only a node without peers leads at once. */
  ghost predicate Campaigns(s: Server, w: Server, t: nat) {
    && w.term == w.disk.term == t && w.votedFor == w.disk.votedFor == s.id && w.votes == 1
    && w.disk.peers == w.peers == s.peers && w.log == s.log && w.base == s.base
    && (if s.peers == [] then InOffice(s, w) else w.role == Candidate && w.leader == s.leader)
  }

  /** A removed node never campaigns; any other does, in the next term. */
  lemma ElectionIs(s: Server)
    ensures s.removed ==> StartElection(s) == s
    ensures !s.removed ==> Campaigns(s, StartElection(s), s.term + 1)
  {
  }

  /** A forced election: only for the known leader of a current term, and then in the term after the one it names. */
  lemma TimeoutNowIs(s: Server, from: NodeId, t: nat)
    ensures from != s.leader || t < s.term ==> TimeoutNow(s, from, t) == s
    ensures from == s.leader && t >= s.term && !s.removed ==> Campaigns(s, TimeoutNow(s, from, t), t + 1)
    ensures from == s.leader && t >= s.term && s.removed ==>
              TimeoutNow(s, from, t) == StepUp(s, t) && (t > s.term ==> StepUp(s, t).role == Follower)
  {
    ElectionIs(StepUp(s, t));
    hide StartElection;
  }

  /** The two events that stand for an accepted call in the cluster do to the node, and to no other, what it does. */
  lemma TimeoutNowIsTwoEvents(s: State, n: NodeId, from: NodeId, t: nat)
    requires n in s.servers && from == s.servers[n].leader && t >= s.servers[n].term
    ensures Enabled(s, Transfer(n, t)) && Enabled(Next(s, Transfer(n, t)), Timeout(n))
    ensures Next(Next(s, Transfer(n, t)), Timeout(n)).servers == s.servers[n := TimeoutNow(s.servers[n], from, t)]
  {
    hide StartElection, StepUp, Wins, Commits;
  }

  /** A candidate takes office exactly with the vote that makes a majority of all nodes, itself included. */
  lemma VoteReplyIs(s: Server, r: VoteReply)
    ensures var w := HandleVoteReply(s, r);
            && w.disk == s.disk && w.log == s.log && w.base == s.base && w.peers == s.peers
            && w.term == (if r.term > s.term then r.term else s.term)
            && (r.term > s.term ==> w.role == Follower && w.votedFor == NOBODY && w.votes == s.votes)
            && (r.term <= s.term && s.role == Candidate && r.granted ==>
                  && w.votes == s.votes + 1 && w.votedFor == s.votedFor
                  && if 2 * w.votes > |s.peers| + 1 then InOffice(s, w) else w.role == Candidate)
            && (r.term <= s.term && !(s.role == Candidate && r.granted) ==> w == s)
  {
  }

  // ------------------------------------------------------------------ proposals

  /** Only a leader accepts a command, and the index it returns is the index at which its log now ends with it. */
  lemma ProposeIs(s: Server, cmd: Command)
    ensures var (w, r) := Propose(s, cmd);
            && (r.Some? <==> s.role == Leader)
            && (r.None? ==> w == s)
            && (r.Some? ==>
                  && r.value == Last(w) == Last(s) + 1 && |w.log| == |s.log| + 1 && w.log[..|s.log|] == s.log
                  && w.log[|s.log|] == Entry(r.value, s.term, cmd) && w.disk.log == w.log
                  && (Shape(s.log, s.base) ==> EntryAt(w.log, w.base, r.value) == Some(Entry(r.value, s.term, cmd))))
  {
  }

  // ------------------------------------------------------- configuration changes

  lemma {:induction false} BelievedKeeps(peers: seq<NodeId>, m: map<NodeId, nat>, m': map<NodeId, nat>, n: nat)
    requires forall p :: p in peers ==> Get(m, p) == Get(m', p)
    ensures Believed(peers, m, n) == Believed(peers, m', n)
  {
    if peers != [] { BelievedKeeps(peers[..|peers| - 1], m, m', n); }
  }

  /** An added peer counts for nothing until it answers, so it makes nothing committable. */
  lemma AddedPeerCountsForNothing(s: Server, x: NodeId, n: nat)
    requires x != s.id && x !in s.peers && n > 0
    ensures var w := ApplyConfig(s, true, x);
            && w.peers == s.peers + [x] && w.disk.peers == w.peers && Get(w.matchIndex, x) == 0
            && NextOf(w, x) == Last(s) + 1
            && Holders(w, n) == Holders(s, n) && (Committable(w, n) ==> Committable(s, n))
  {
    var w := ApplyConfig(s, true, x);
    assert w.peers[..|s.peers|] == s.peers && w.peers[|s.peers|] == x;
    BelievedKeeps(s.peers, s.matchIndex, w.matchIndex, n);
  }

  lemma {:induction false} WithoutIs(peers: seq<NodeId>, x: NodeId)
    ensures x !in Without(peers, x) && forall p :: p != x ==> (p in Without(peers, x) <==> p in peers)
  {
    if peers != [] { WithoutIs(peers[..|peers| - 1], x); }
  }

  lemma {:induction false} BelievedWithout(peers: seq<NodeId>, m: map<NodeId, nat>, x: NodeId, n: nat)
    ensures Believed(Without(peers, x), m - {x}, n) == Without(Believed(peers, m, n), x)
  {
    if peers != [] {
      var p, front := peers[|peers| - 1], peers[..|peers| - 1];
      BelievedWithout(front, m, x, n);
      if p != x {
        assert (Without(front, x) + [p])[..|Without(front, x)|] == Without(front, x);
        assert (Believed(front, m, n) + [p])[..|Believed(front, m, n)|] == Believed(front, m, n);
      } else if Get(m, p) >= n {
        assert (Believed(front, m, n) + [p])[..|Believed(front, m, n)|] == Believed(front, m, n);
      }
    }
  }

  /** A removed peer no longer counts; the others count as before. */
  lemma {:induction false} RemovedPeerNoLongerCounts(s: Server, x: NodeId, n: nat)
    requires x != s.id
    ensures var w := ApplyConfig(s, false, x);
            && x !in w.peers && w.disk.peers == w.peers && x !in w.matchIndex && x !in w.nextIndex
            && (forall p :: p != x ==>
                  && (p in w.peers <==> p in s.peers)
                  && Get(w.matchIndex, p) == Get(s.matchIndex, p) && Get(w.nextIndex, p) == Get(s.nextIndex, p))
            && Believed(w.peers, w.matchIndex, n) == Without(Believed(s.peers, s.matchIndex, n), x)
  {
    WithoutIs(s.peers, x);
    BelievedWithout(s.peers, s.matchIndex, x, n);
  }

  /** Removing itself, a node steps down, forgets everyone and says so on disk; adding itself changes nothing. */
  lemma OwnChange(s: Server)
    ensures var w := ApplyConfig(s, false, s.id);
            && w.removed && w.role == Follower && w.leader == NOBODY && w.votedFor == NOBODY && w.term == s.term
            && w.peers == [] && (forall p :: Get(w.matchIndex, p) == Get(w.nextIndex, p) == 0)
            && w.disk == s.disk.(term := s.term, votedFor := NOBODY, peers := []) && StartElection(w) == w
    ensures ApplyConfig(s, true, s.id) == s
  {
  }

  /** What a change leaves behind, said of the peers alone. */
  lemma ChangeIs(s: Server, isAdd: bool, x: NodeId)
    ensures var w := ApplyConfig(s, isAdd, x);
            && (isAdd && x != s.id ==> x in w.peers)
            && (isAdd && x != s.id && x !in s.peers ==> Get(w.matchIndex, x) == 0)
            && (!isAdd ==> x !in w.peers && (x == s.id ==> w.removed && w.role == Follower))
  {
    WithoutIs(s.peers, x);
    hide Without;
  }

  // ------------------------------------------------------------------ snapshots

  /** A snapshot is taken at the last applied entry, if the log holds it, and carries what the snapshotter gave. */
  lemma SnapshotCarries(s: Server, data: Store)
    ensures var w := CreateSnapshot(s, data);
            if s.base <= s.lastApplied && s.lastApplied - s.base < |s.log| then
              var sn := Snapshot(s.lastApplied, s.log[s.lastApplied - s.base].term, data);
              w.snap == w.disk.snap == Some(sn) && w.base == sn.index && w.disk.log == w.log
            else w == s
  {
    hide KeepAfter;
  }

  /** An installed snapshot is the one sent, and it alone says what is committed and applied. */
  lemma InstallCarries(s: Server, t: nat, sn: Snapshot)
    ensures var w := InstallSnapshot(s, t, sn);
            if t >= s.term then
              && w.snap == w.disk.snap == Some(sn) && w.base == w.commitIndex == w.lastApplied == sn.index
              && w.term == t && w.disk.log == w.log && (t > s.term ==> w.role == Follower && w.votedFor == NOBODY)
            else w == s
  {
    hide KeepAfter;
  }
}
