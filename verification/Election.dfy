/** Elections seen from the votes alone: ballots in memory and on disk, votes granted, terms won. */
module Election {
  import opened Types
  import opened Quorums

  datatype Vote = Vote(voter: NodeId, term: nat, cand: NodeId)

  /** The part of the node that internal/raft/meta.go persists. */
  datatype Ballot = Ballot(term: nat, votedFor: NodeId)

  datatype Member = Member(ballot: Ballot, disk: Ballot, role: Role, granted: set<NodeId>)

  datatype Win = Win(leader: NodeId, support: set<NodeId>)

  datatype State = State(members: map<NodeId, Member>, votes: set<Vote>, wins: map<nat, Win>)

  // ---------------------------------------------------------------- steps

  function Update(s: State, n: NodeId, m: Member): State {
    s.(members := s.members[n := m])
  }

  /** A node starts an election: next term, own vote, both durable. */
  function Campaign(s: State, n: NodeId): State
    requires n in s.members
  {
    var b := Ballot(s.members[n].ballot.term + 1, n);
    Update(s, n, Member(b, b, Candidate, {n})).(votes := s.votes + {Vote(n, b.term, n)})
  }

  /** A node adopts a higher term; `saved` says whether it reached the disk. */
  function Adopt(s: State, n: NodeId, t: nat, saved: bool): State
    requires n in s.members
  {
    var m := s.members[n];
    if t <= m.ballot.term then s
    else
      var b := Ballot(t, NOBODY);
      Update(s, n, Member(b, if saved then b else m.disk, Follower, {}))
  }

  /** A node grants its vote for its current term, durably. */
  function Grant(s: State, n: NodeId, c: NodeId): State
    requires n in s.members
  {
    var m := s.members[n];
    var b := m.ballot.(votedFor := c);
    Update(s, n, m.(ballot := b, disk := b)).(votes := s.votes + {Vote(n, b.term, c)})
  }

  /** A candidate counts the vote of p. */
  function Count(s: State, c: NodeId, p: NodeId): State
    requires c in s.members
  {
    var m := s.members[c];
    Update(s, c, m.(granted := m.granted + {p}))
  }

  /** A candidate takes office on the votes it has counted. */
  function TakeOffice(s: State, c: NodeId): State
    requires c in s.members
  {
    var m := s.members[c];
    Update(s, c, m.(role := Leader)).(wins := s.wins[m.ballot.term := Win(c, m.granted)])
  }

  /** Crash and restart: only the disk survives. */
  function Restart(s: State, n: NodeId): State
    requires n in s.members
  {
    var m := s.members[n];
    Update(s, n, Member(m.disk, m.disk, Follower, {}))
  }

  // ------------------------------------------------------------ invariants

  ghost predicate VoteRecorded(s: State, v: Vote) {
    && v.voter in s.members
    && v.cand in s.members
    && v.cand != NOBODY
    && var m := s.members[v.voter];
    && v.term <= m.disk.term
    && v.term <= s.members[v.cand].disk.term
    && (v.term == m.disk.term ==> m.disk.votedFor == v.cand)
    && (v.term == m.ballot.term ==> m.ballot.votedFor == v.cand)
  }

  /** Every granted vote is on its voter's disk, and the disk never runs ahead of memory. */
  ghost predicate VoteInv(s: State) {
    && (forall n :: n in s.members ==> s.members[n].disk.term <= s.members[n].ballot.term)
    && (forall v {:trigger VoteRecorded(s, v)} :: v in s.votes ==> VoteRecorded(s, v))
    && OneVote(s.votes)
  }

  ghost predicate Clash(v: Vote, w: Vote) {
    v.voter == w.voter && v.term == w.term && v.cand != w.cand
  }

  ghost predicate OneVote(votes: set<Vote>) {
    forall v, w {:trigger Clash(v, w)} :: v in votes && w in votes ==> !Clash(v, w)
  }

  ghost predicate GrantedBy(s: State, c: NodeId, t: nat, voters: set<NodeId>) {
    voters <= s.members.Keys && forall p :: p in voters ==> Vote(p, t, c) in s.votes
  }

  ghost predicate RoleOk(s: State, n: NodeId)
    requires n in s.members
  {
    var m := s.members[n];
    && (m.role == Candidate ==> GrantedBy(s, n, m.ballot.term, m.granted))
    && (m.role == Candidate ==> m.ballot.term in s.wins ==> s.wins[m.ballot.term].leader != n)
    && (m.role == Leader ==> m.ballot.term in s.wins && s.wins[m.ballot.term].leader == n)
    && (m.role != Follower ==> m.disk == m.ballot && m.ballot.term > 0)
  }

  ghost predicate WinOk(s: State, t: nat)
    requires t in s.wins
  {
    var w := s.wins[t];
    && w.leader in s.members
    && 0 < t <= s.members[w.leader].disk.term
    && Majority(s.members.Keys, w.support)
    && GrantedBy(s, w.leader, t, w.support)
  }

  /** Every term won was won on a majority of votes that were really granted. */
  ghost predicate WinInv(s: State) {
    && (forall n {:trigger RoleOk(s, n)} :: n in s.members ==> RoleOk(s, n))
    && (forall t {:trigger WinOk(s, t)} :: t in s.wins ==> WinOk(s, t))
  }

  // ---------------------------------------------------------- preservation

  /** Changing one member keeps the invariants if that member stays sound and no vote or win is lost. */
  lemma WinsSurvive(s: State, s': State, n: NodeId)
    requires n in s.members && WinInv(s) && s'.wins == s.wins && s.votes <= s'.votes
    requires n in s'.members && s'.members == s.members[n := s'.members[n]]
    requires s'.members[n].disk.term >= s.members[n].disk.term
    requires RoleOk(s', n)
    ensures WinInv(s')
  {
    assert s'.members.Keys == s.members.Keys;
    forall t | t in s'.wins ensures WinOk(s', t) {
      assert WinOk(s, t);
    }
    forall k | k in s'.members ensures RoleOk(s', k) {
      assert RoleOk(s, k);
    }
  }

  /** A new vote w, cast by a member n whose record of it is sound, clashes with nothing. */
  lemma VotesSurvive(s: State, s': State, n: NodeId, w: Vote)
    requires n in s.members && VoteInv(s) && s'.votes <= s.votes + {w}
    requires n in s'.members && s'.members == s.members[n := s'.members[n]]
    requires s.members[n].disk.term <= s'.members[n].disk.term <= s'.members[n].ballot.term
    requires forall v :: v in s'.votes && v.voter == n ==> VoteRecorded(s', v)
    requires w in s'.votes - s.votes ==> w.voter == n && w.term == s'.members[n].ballot.term
    ensures VoteInv(s')
  {
    forall v | v in s'.votes ensures VoteRecorded(s', v) {
      if v.voter != n { assert VoteRecorded(s, v); }
    }
    forall v, x | v in s'.votes && x in s'.votes ensures !Clash(v, x) {
      if v in s.votes && x in s.votes {
        assert !Clash(v, x);
      } else if v.voter == x.voter == n {
        assert VoteRecorded(s', v) && VoteRecorded(s', x);
      }
    }
  }

  lemma CampaignKeeps(s: State, n: NodeId)
    requires n in s.members && n != NOBODY && VoteInv(s)
    ensures VoteInv(Campaign(s, n))
    ensures WinInv(s) ==> WinInv(Campaign(s, n))
  {
    forall v | v in s.votes && v.voter == n ensures VoteRecorded(Campaign(s, n), v) {
      assert VoteRecorded(s, v);
    }
    VotesSurvive(s, Campaign(s, n), n, Vote(n, s.members[n].ballot.term + 1, n));
    if WinInv(s) {
      var t := s.members[n].ballot.term + 1;
      assert t in s.wins ==> WinOk(s, t);
      WinsSurvive(s, Campaign(s, n), n);
    }
  }

  lemma AdoptKeeps(s: State, n: NodeId, t: nat, saved: bool)
    requires n in s.members && VoteInv(s)
    ensures VoteInv(Adopt(s, n, t, saved))
    ensures WinInv(s) ==> WinInv(Adopt(s, n, t, saved))
  {
    forall v | v in s.votes && v.voter == n ensures VoteRecorded(Adopt(s, n, t, saved), v) {
      assert VoteRecorded(s, v);
    }
    VotesSurvive(s, Adopt(s, n, t, saved), n, Vote(n, 0, n));
    if WinInv(s) && t > s.members[n].ballot.term {
      WinsSurvive(s, Adopt(s, n, t, saved), n);
    }
  }

  lemma GrantKeeps(s: State, n: NodeId, c: NodeId)
    requires n in s.members && c in s.members && c != NOBODY && VoteInv(s)
    requires s.members[n].ballot.votedFor in {NOBODY, c}
    requires s.members[n].ballot.term <= s.members[c].disk.term
    ensures VoteInv(Grant(s, n, c))
    ensures WinInv(s) ==> WinInv(Grant(s, n, c))
  {
    forall v | v in s.votes && v.voter == n ensures VoteRecorded(Grant(s, n, c), v) {
      assert VoteRecorded(s, v);
    }
    VotesSurvive(s, Grant(s, n, c), n, Vote(n, s.members[n].ballot.term, c));
    if WinInv(s) {
      assert RoleOk(s, n);
      WinsSurvive(s, Grant(s, n, c), n);
    }
  }

  lemma CountKeeps(s: State, c: NodeId, p: NodeId)
    requires c in s.members && VoteInv(s)
    ensures VoteInv(Count(s, c, p))
    ensures WinInv(s) && Vote(p, s.members[c].ballot.term, c) in s.votes ==> WinInv(Count(s, c, p))
  {
    forall v | v in s.votes ensures VoteRecorded(Count(s, c, p), v) {
      assert VoteRecorded(s, v);
    }
    if WinInv(s) && Vote(p, s.members[c].ballot.term, c) in s.votes {
      assert RoleOk(s, c);
      WinsSurvive(s, Count(s, c, p), c);
    }
  }

  ghost predicate CanTakeOffice(s: State, c: NodeId)
    requires c in s.members
  {
    var m := s.members[c];
    m.role == Candidate && m.ballot.term > 0 && Majority(s.members.Keys, m.granted)
  }

  /** A candidate with a majority is the first winner of its term. */
  lemma MajorityIsFirst(s: State, c: NodeId)
    requires c in s.members && VoteInv(s) && WinInv(s) && CanTakeOffice(s, c)
    ensures s.members[c].ballot.term !in s.wins
  {
    var m := s.members[c];
    var t := m.ballot.term;
    assert RoleOk(s, c);
    if t in s.wins {
      assert WinOk(s, t);
      var p := Overlap(s.members.Keys, m.granted, s.wins[t].support);
      assert Clash(Vote(p, t, c), Vote(p, t, s.wins[t].leader));
      assert false;
    }
  }

  lemma TakeOfficeKeeps(s: State, c: NodeId)
    requires c in s.members && VoteInv(s)
    ensures VoteInv(TakeOffice(s, c))
    ensures WinInv(s) && CanTakeOffice(s, c) ==> WinInv(TakeOffice(s, c))
  {
    forall v | v in s.votes ensures VoteRecorded(TakeOffice(s, c), v) {
      assert VoteRecorded(s, v);
    }
    if WinInv(s) && CanTakeOffice(s, c) {
      MajorityIsFirst(s, c);
      var s' := TakeOffice(s, c);
      assert s'.members.Keys == s.members.Keys;
      assert RoleOk(s, c);
      forall t | t in s'.wins ensures WinOk(s', t) {
        if t != s.members[c].ballot.term { assert WinOk(s, t); }
      }
      forall n | n in s'.members ensures RoleOk(s', n) {
        assert RoleOk(s, n);
      }
    }
  }

  lemma RestartKeeps(s: State, n: NodeId)
    requires n in s.members && VoteInv(s)
    ensures VoteInv(Restart(s, n))
    ensures WinInv(s) ==> WinInv(Restart(s, n))
  {
    forall v | v in s.votes && v.voter == n ensures VoteRecorded(Restart(s, n), v) {
      assert VoteRecorded(s, v);
    }
    VotesSurvive(s, Restart(s, n), n, Vote(n, 0, n));
    if WinInv(s) {
      WinsSurvive(s, Restart(s, n), n);
    }
  }
}
