/** The steps of the uncompacted protocol, each with the proof that it keeps the invariant. */
module ProtocolSteps {
  import opened Types
  import opened Quorums
  import E = Election
  import opened Protocol

  // --------------------------------------------------------------------- steps

  function Campaign(s: State, n: NodeId): State
    requires n in s.e.members && n in s.nodes
  {
    var v := E.Vote(n, s.e.members[n].ballot.term + 1, n);
    s.(e := E.Campaign(s.e, n), voteLog := s.voteLog[v := s.nodes[n].log])
  }

  function Adopt(s: State, n: NodeId, t: nat, saved: bool): State
    requires n in s.e.members
  {
    s.(e := E.Adopt(s.e, n, t, saved))
  }

  function Grant(s: State, n: NodeId, c: NodeId): State
    requires n in s.e.members && n in s.nodes
  {
    var v := E.Vote(n, s.e.members[n].ballot.term, c);
    s.(e := E.Grant(s.e, n, c), voteLog := if v in s.voteLog then s.voteLog else s.voteLog[v := s.nodes[n].log])
  }

  function Count(s: State, c: NodeId, p: NodeId): State
    requires c in s.e.members
  {
    s.(e := E.Count(s.e, c, p))
  }

  function TakeOffice(s: State, c: NodeId): State
    requires c in s.e.members && c in s.nodes
  {
    var log := s.nodes[c].log;
    s.(e := E.TakeOffice(s.e, c), reigns := s.reigns[s.e.members[c].ballot.term := Reign(|log|, log)])
  }

  function Propose(s: State, n: NodeId, data: Command): State
    requires n in s.e.members && n in s.nodes && s.e.members[n].ballot.term in s.reigns
  {
    var t := s.e.members[n].ballot.term;
    var x := s.nodes[n];
    var log := x.log + [Entry(|x.log|, t, data)];
    s.(nodes := s.nodes[n := x.(log := log, ackTerm := t)],
       reigns := s.reigns[t := s.reigns[t].(log := log)],
       acked := s.acked[(n, t) := |x.log|])
  }

  /** The log after accepting the reign of term t through index hi. */
  ghost function Accepted(reigns: map<nat, Reign>, log: seq<Entry>, t: nat, hi: nat): seq<Entry>
    requires t in reigns && hi < |reigns[t].log|
  {
    if Has(reigns, log, t, hi) then log else reigns[t].log[..hi + 1]
  }

  /** Node n accepts the reign of its term through hi and learns that `commit` is committed (certificate ct, ck). */
  ghost function Accept(s: State, n: NodeId, hi: nat, commit: nat, ct: nat, ck: nat): State
    requires n in s.e.members && n in s.nodes
    requires var t := s.e.members[n].ballot.term; t in s.reigns && hi < |s.reigns[t].log|
  {
    var t := s.e.members[n].ballot.term;
    var x := s.nodes[n];
    var y := x.(log := Accepted(s.reigns, x.log, t, hi), ackTerm := t);
    var z := if commit > x.commit then y.(commit := commit, certTerm := ct, certIndex := ck) else y;
    s.(nodes := s.nodes[n := z],
       acked := s.acked[(n, t) := if (n, t) in s.acked && hi <= s.acked[(n, t)] then s.acked[(n, t)] else hi])
  }

  function AdvanceCommit(s: State, n: NodeId, k: nat): State
    requires n in s.e.members && n in s.nodes
  {
    s.(nodes := s.nodes[n := s.nodes[n].(commit := k, certTerm := s.e.members[n].ballot.term, certIndex := k)])
  }

  function Apply(s: State, n: NodeId, i: nat): State
    requires n in s.nodes && i < |s.nodes[n].log|
  {
    s.(applied := s.applied + {Applied(n, i, s.nodes[n].log[i])})
  }

  function Restart(s: State, n: NodeId): State
    requires n in s.e.members
  {
    s.(e := E.Restart(s.e, n))
  }

  // ----------------------------------------- steps that touch only the ballots

  /** Steps that leave logs, reigns and acknowledgements alone and strip no vote of its log. */
  ghost predicate BallotsOnly(s: State, s': State) {
    s'.nodes == s.nodes && s'.reigns == s.reigns && s'.acked == s.acked && s'.applied == s.applied
  }

  lemma CommitSurvives(s: State, s': State)
    requires CommitInv(s) && BallotsOnly(s, s')
    ensures CommitInv(s')
  {
    forall n | n in s'.nodes ensures CommitOk(s', n) {
      assert CommitOk(s, n);
      assert s.nodes[n].commit > 0 ==>
               Ackers(s', s.nodes[n].certTerm, s.nodes[n].certIndex) ==
                 Ackers(s, s.nodes[n].certTerm, s.nodes[n].certIndex);
    }
    forall a | a in s'.applied ensures AppliedOk(s', a) {
      assert AppliedOk(s, a);
    }
  }

  lemma LogSurvives(s: State, s': State, n: NodeId)
    requires LogInv(s) && BallotsOnly(s, s') && n in s.nodes
    requires n in s.e.members && n in s'.e.members && s'.e.members == s.e.members[n := s'.e.members[n]]
    requires s.nodes[n].ackTerm <= s'.e.members[n].ballot.term
    requires s'.e.members[n].role == Leader ==>
               s.e.members[n].role == Leader && s'.e.members[n].ballot.term == s.e.members[n].ballot.term
    ensures LogInv(s')
  {
    forall k | k in s'.nodes ensures NodeOk(s', k) {
      assert NodeOk(s, k);
    }
    forall k, t | (k, t) in s'.acked ensures AckOk(s', k, t) {
      assert AckOk(s, k, t);
    }
  }

  lemma BallotSurvives(s: State, s': State, v: E.Vote)
    requires v in s.voteLog && v in s'.voteLog && s'.voteLog[v] == s.voteLog[v]
    requires BallotsOnly(s, s') && s'.e.wins == s.e.wins && BallotOk(s, v)
    ensures BallotOk(s', v)
  {
    if Live(s', v) {
      forall t: nat, k: nat | t < v.term && Acked(s', v.voter, t, k)
        ensures Has(s'.reigns, s'.voteLog[v], t, k) || Lost(s'.reigns, t, k, v.term - 1)
      {
        assert Acked(s, v.voter, t, k);
      }
    }
  }

  /** Votes and wins survive a step of node n that casts at most the vote w. */
  lemma VoteLogSurvives(s: State, s': State, n: NodeId, w: E.Vote)
    requires Keys(s) && VoteLogInv(s) && BallotsOnly(s, s') && s'.e.wins == s.e.wins
    requires s'.voteLog == s.voteLog
             || (w !in s.voteLog && w in s'.voteLog && s'.voteLog == s.voteLog[w := s'.voteLog[w]] && BallotOk(s', w)
                 && AskOk(s', w))
    requires n in s.e.members && n in s'.e.members && s'.e.members == s.e.members[n := s'.e.members[n]]
    requires forall v :: v in s.voteLog && v.cand == n ==> AskOk(s', v)
    ensures VoteLogInv(s')
  {
    forall v | v in s'.voteLog ensures BallotOk(s', v) {
      if v in s.voteLog {
        assert BallotOk(s, v);
        BallotSurvives(s, s', v);
      }
    }
    forall v | v in s'.voteLog ensures AskOk(s', v) {
      if v in s.voteLog {
        assert AskOk(s, v);
      }
    }
    forall t, p | t in s'.e.wins && p in s'.e.wins[t].support ensures SupportOk(s', t, p) {
      assert SupportOk(s, t, p);
    }
  }

  /** A vote cast now on the voter's own log, useful only if its term has no leader yet. */
  lemma NewBallot(s: State, s': State, v: E.Vote)
    requires Keys(s) && LogInv(s) && v.voter in s.nodes && s.nodes[v.voter].ackTerm <= v.term
    requires BallotsOnly(s, s') && v in s'.voteLog && s'.voteLog[v] == s.nodes[v.voter].log
    requires Live(s', v) ==> v.term !in s.reigns
    ensures BallotOk(s', v)
  {
    assert NodeOk(s, v.voter);
    if Live(s', v) {
      forall t: nat, k: nat | t < v.term && Acked(s', v.voter, t, k)
        ensures Has(s'.reigns, s'.voteLog[v], t, k) || Lost(s'.reigns, t, k, v.term - 1)
      {
        assert AckOk(s, v.voter, t);
        if !Has(s.reigns, s.nodes[v.voter].log, t, k) {
          var u :| t < u <= s.nodes[v.voter].ackTerm && LacksAt(s.reigns, u, t, k);
          assert u != v.term;
        }
      }
    }
  }

  /** The node steps down, keeps its role and term, or campaigns in a term nobody voted for it in. */
  ghost predicate OfficeOk(s: State, s': State, n: NodeId)
    requires n in s.e.members && n in s'.e.members
  {
    var m, m' := s.e.members[n], s'.e.members[n];
    || m'.role == Follower
    || (m'.role == m.role && m'.ballot.term == m.ballot.term)
    || (m'.role == Candidate && forall v :: v in s.e.votes && v.cand == n ==> v.term < m'.ballot.term)
  }

  /** A step of node n that changes its ballot, and casts at most the vote w, keeps the invariant. */
  lemma BallotStepKeeps(s: State, s': State, n: NodeId, w: E.Vote)
    requires Inv(s) && Keys(s') && BallotsOnly(s, s') && s'.e.wins == s.e.wins && n in s.nodes
    requires s'.voteLog == s.voteLog
             || (w !in s.voteLog && w in s'.voteLog && s'.voteLog == s.voteLog[w := s'.voteLog[w]] && BallotOk(s', w)
                 && AskOk(s', w))
    requires n in s'.e.members && s'.e.members == s.e.members[n := s'.e.members[n]]
    requires s.nodes[n].ackTerm <= s'.e.members[n].ballot.term
    requires OfficeOk(s, s', n)
    ensures Inv(s')
  {
    CommitSurvives(s, s');
    LogSurvives(s, s', n);
    forall v | v in s.voteLog && v.cand == n ensures AskOk(s', v) {
      assert AskOk(s, v);
    }
    VoteLogSurvives(s, s', n, w);
  }

  lemma CampaignKeeps(s: State, n: NodeId)
    requires Inv(s) && n in s.nodes && n != NOBODY
    ensures Inv(Campaign(s, n))
  {
    var s' := Campaign(s, n);
    var v := E.Vote(n, s.e.members[n].ballot.term + 1, n);
    E.CampaignKeeps(s.e, n);
    assert NodeOk(s, n);
    assert v.term in s.e.wins ==> E.WinOk(s.e, v.term);
    forall w | w in s.e.votes && w.cand == n ensures w.term < v.term {
      assert E.VoteRecorded(s.e, w);
    }
    NewBallot(s, s', v);
    BallotStepKeeps(s, s', n, v);
  }

  lemma AdoptKeeps(s: State, n: NodeId, t: nat, saved: bool)
    requires Inv(s) && n in s.nodes
    ensures Inv(Adopt(s, n, t, saved))
  {
    if t > s.e.members[n].ballot.term {
      E.AdoptKeeps(s.e, n, t, saved);
      assert NodeOk(s, n);
      BallotStepKeeps(s, Adopt(s, n, t, saved), n, E.Vote(n, 0, NOBODY));
    }
  }

  /** What the up-to-date check contributes: a candidate that can still win is no older than its voter. */
  ghost predicate MayGrant(s: State, n: NodeId, c: NodeId)
    requires n in s.nodes && n in s.e.members && c in s.nodes && c in s.e.members
  {
    var t := s.e.members[n].ballot.term;
    && c != NOBODY
    && s.e.members[n].ballot.votedFor in {NOBODY, c}
    && t <= s.e.members[c].disk.term
    && (s.e.members[c].ballot.term == t && s.e.members[c].role == Candidate && t !in s.e.wins ==>
          |s.nodes[c].log| > 0 && |s.nodes[n].log| > 0 && NewerOrEqual(s.nodes[c].log, s.nodes[n].log))
  }

  lemma GrantKeeps(s: State, n: NodeId, c: NodeId)
    requires Inv(s) && n in s.nodes && c in s.nodes && MayGrant(s, n, c)
    ensures Inv(Grant(s, n, c))
  {
    var s' := Grant(s, n, c);
    var v := E.Vote(n, s.e.members[n].ballot.term, c);
    E.GrantKeeps(s.e, n, c);
    assert NodeOk(s, n);
    if v !in s.voteLog {
      assert v.term in s.e.wins ==> E.WinOk(s.e, v.term);
      NewBallot(s, s', v);
    }
    BallotStepKeeps(s, s', n, v);
  }

  lemma CountKeeps(s: State, c: NodeId, p: NodeId)
    requires Inv(s) && c in s.nodes
    requires E.Vote(p, s.e.members[c].ballot.term, c) in s.e.votes
    ensures Inv(Count(s, c, p))
  {
    E.CountKeeps(s.e, c, p);
    assert NodeOk(s, c);
    BallotStepKeeps(s, Count(s, c, p), c, E.Vote(c, 0, NOBODY));
  }

  /** A restart is safe if no acknowledged term is lost with the memory. */
  lemma RestartKeeps(s: State, n: NodeId)
    requires Inv(s) && n in s.nodes
    requires s.nodes[n].ackTerm <= s.e.members[n].disk.term
    ensures Inv(Restart(s, n))
  {
    E.RestartKeeps(s.e, n);
    BallotStepKeeps(s, Restart(s, n), n, E.Vote(n, 0, NOBODY));
  }

  // -------------------------------------------------- steps that extend reigns

  ghost predicate Kept(r: map<nat, Reign>, r': map<nat, Reign>, t: nat) {
    && t in r
    && t in r'
    && r'[t].start == r[t].start <= |r[t].log| <= |r'[t].log|
    && forall i :: 0 <= i < |r[t].log| ==> r'[t].log[i] == r[t].log[i]
  }

  /** Reigns are only added and their logs only appended to. */
  ghost predicate Grow(r: map<nat, Reign>, r': map<nat, Reign>) {
    forall t {:trigger Kept(r, r', t)} :: t in r ==> Kept(r, r', t)
  }

  lemma MatchedGrows(r: map<nat, Reign>, r': map<nat, Reign>, log: seq<Entry>)
    requires Grow(r, r') && Matched(r, log)
    ensures Matched(r', log)
  {
    forall j | 0 < j < |log| ensures Rooted(r', log, j) {
      assert Rooted(r, log, j);
      assert Kept(r, r', log[j].term);
    }
  }

  lemma LostGrows(r: map<nat, Reign>, r': map<nat, Reign>, t: nat, k: nat, hi: int)
    requires Grow(r, r') && Lost(r, t, k, hi)
    ensures Lost(r', t, k, hi)
  {
    var u :| t < u <= hi && LacksAt(r, u, t, k);
    assert Kept(r, r', u) && Kept(r, r', t);
    assert LacksAt(r', u, t, k);
  }

  ghost predicate AcksGrow(s: State, s': State) {
    forall n, t :: (n, t) in s.acked ==> (n, t) in s'.acked && s.acked[(n, t)] <= s'.acked[(n, t)]
  }

  lemma ChosenGrows(s: State, s': State, t: nat, k: nat)
    requires Grow(s.reigns, s'.reigns) && AcksGrow(s, s') && s'.nodes.Keys == s.nodes.Keys && Chosen(s, t, k)
    ensures Chosen(s', t, k)
  {
    assert Kept(s.reigns, s'.reigns, t);
    SubsetSize(Ackers(s, t, k), Ackers(s', t, k));
  }

  /** A committed prefix stays committed while its node's log keeps it. */
  lemma CommitGrows(s: State, s': State, n: NodeId)
    requires Grow(s.reigns, s'.reigns) && AcksGrow(s, s') && s'.nodes.Keys == s.nodes.Keys
    requires CommitOk(s, n) && s.nodes[n].ackTerm <= s'.nodes[n].ackTerm
    requires var x, y := s.nodes[n], s'.nodes[n];
             y.commit == x.commit && y.certTerm == x.certTerm && y.certIndex == x.certIndex
               && Agree(x.log, y.log, x.commit)
    ensures CommitOk(s', n)
  {
    var x := s.nodes[n];
    if x.commit > 0 {
      ChosenGrows(s, s', x.certTerm, x.certIndex);
      assert Kept(s.reigns, s'.reigns, x.certTerm);
    }
  }

  lemma AckGrows(s: State, s': State, n: NodeId, t: nat)
    requires Grow(s.reigns, s'.reigns) && AckOk(s, n, t) && n in s'.nodes
    requires (n, t) in s'.acked && s'.acked[(n, t)] == s.acked[(n, t)]
    requires s.nodes[n].log <= s'.nodes[n].log && s.nodes[n].ackTerm <= s'.nodes[n].ackTerm
    ensures AckOk(s', n, t)
  {
    assert Kept(s.reigns, s'.reigns, t);
    forall k | 0 <= k <= s'.acked[(n, t)]
      ensures Has(s'.reigns, s'.nodes[n].log, t, k) || Lost(s'.reigns, t, k, s'.nodes[n].ackTerm)
    {
      if !Has(s.reigns, s.nodes[n].log, t, k) {
        LostGrows(s.reigns, s'.reigns, t, k, s.nodes[n].ackTerm);
      }
    }
  }

  /** A vote keeps its standing while no acknowledgement of an earlier term is added for its voter. */
  lemma BallotGrows(s: State, s': State, v: E.Vote)
    requires Grow(s.reigns, s'.reigns) && BallotOk(s, v) && v in s'.voteLog && s'.voteLog[v] == s.voteLog[v]
    requires Live(s', v) ==> Live(s, v)
    requires forall t: nat, k: nat :: t < v.term && Acked(s', v.voter, t, k) ==> Acked(s, v.voter, t, k)
    ensures BallotOk(s', v)
  {
    MatchedGrows(s.reigns, s'.reigns, s.voteLog[v]);
    if Live(s', v) {
      forall t: nat, k: nat | t < v.term && Acked(s', v.voter, t, k)
        ensures Has(s'.reigns, s'.voteLog[v], t, k) || Lost(s'.reigns, t, k, v.term - 1)
      {
        assert Acked(s, v.voter, t, k);
        if Has(s.reigns, s.voteLog[v], t, k) {
          assert Kept(s.reigns, s'.reigns, t);
        } else {
          LostGrows(s.reigns, s'.reigns, t, k, v.term - 1);
        }
      }
    }
  }

  lemma TakeOfficeReigns(s: State, c: NodeId)
    requires Inv(s) && c in s.nodes && E.CanTakeOffice(s.e, c)
    ensures s.e.members[c].ballot.term !in s.reigns
    ensures Grow(s.reigns, TakeOffice(s, c).reigns) && ReignsOk(TakeOffice(s, c).reigns)
  {
    var s' := TakeOffice(s, c);
    var t0 := s.e.members[c].ballot.term;
    E.MajorityIsFirst(s.e, c);
    assert NodeOk(s, c);
    var log := s.nodes[c].log;
    forall t | t in s.reigns ensures Kept(s.reigns, s'.reigns, t) {
      assert ReignOk(s.reigns, t);
    }
    MatchedGrows(s.reigns, s'.reigns, log);
    forall t | t in s'.reigns ensures ReignOk(s'.reigns, t) {
      if t != t0 {
        assert ReignOk(s.reigns, t);
        MatchedGrows(s.reigns, s'.reigns, s.reigns[t].log);
      } else {
        forall j | 0 <= j < |log| ensures log[j].term < t0 {
          if 0 < j { assert Rooted(s.reigns, log, j); }
        }
      }
    }
  }

  lemma TakeOfficeLogs(s: State, c: NodeId)
    requires Inv(s) && c in s.nodes && E.CanTakeOffice(s.e, c) && s.e.members[c].ballot.term !in s.reigns
    requires Grow(s.reigns, TakeOffice(s, c).reigns)
    ensures LogInv(TakeOffice(s, c)) && CommitInv(TakeOffice(s, c))
  {
    var s' := TakeOffice(s, c);
    forall n | n in s'.nodes ensures NodeOk(s', n) {
      assert NodeOk(s, n);
      MatchedGrows(s.reigns, s'.reigns, s.nodes[n].log);
    }
    forall n, t | (n, t) in s'.acked ensures AckOk(s', n, t) {
      assert AckOk(s, n, t);
      AckGrows(s, s', n, t);
    }
    forall n | n in s'.nodes ensures CommitOk(s', n) {
      assert CommitOk(s, n);
      CommitGrows(s, s', n);
    }
    forall a | a in s'.applied ensures AppliedOk(s', a) {
      assert AppliedOk(s, a);
    }
  }

  lemma TakeOfficeVotes(s: State, c: NodeId)
    requires Inv(s) && c in s.nodes && E.CanTakeOffice(s.e, c) && s.e.members[c].ballot.term !in s.reigns
    requires Grow(s.reigns, TakeOffice(s, c).reigns)
    ensures VoteLogInv(TakeOffice(s, c))
  {
    var s' := TakeOffice(s, c);
    var t0 := s.e.members[c].ballot.term;
    forall v | v in s'.voteLog ensures BallotOk(s', v) {
      assert BallotOk(s, v);
      BallotGrows(s, s', v);
    }
    forall v | v in s'.voteLog ensures AskOk(s', v) {
      assert AskOk(s, v);
    }
    forall t, p | t in s'.e.wins && p in s'.e.wins[t].support ensures SupportOk(s', t, p) {
      if t != t0 {
        assert SupportOk(s, t, p);
      } else {
        assert E.RoleOk(s.e, c);
        var v := E.Vote(p, t0, c);
        assert AskOk(s, v);
        assert Inherited(s'.reigns, t0) == s.nodes[c].log;
      }
    }
  }

  /** Winning an election: the candidate's log becomes the first log of its reign. */
  lemma TakeOfficeKeeps(s: State, c: NodeId)
    requires Inv(s) && c in s.nodes && E.CanTakeOffice(s.e, c)
    ensures Inv(TakeOffice(s, c))
  {
    E.TakeOfficeKeeps(s.e, c);
    TakeOfficeReigns(s, c);
    TakeOfficeLogs(s, c);
    TakeOfficeVotes(s, c);
  }

  lemma ProposeReigns(s: State, n: NodeId, data: Command)
    requires Inv(s) && n in s.nodes && s.e.members[n].role == Leader
    ensures s.e.members[n].ballot.term in s.reigns
    ensures Grow(s.reigns, Propose(s, n, data).reigns) && ReignsOk(Propose(s, n, data).reigns)
  {
    assert NodeOk(s, n);
    var t0 := s.e.members[n].ballot.term;
    var s' := Propose(s, n, data);
    assert ReignOk(s.reigns, t0);
    forall t | t in s.reigns ensures Kept(s.reigns, s'.reigns, t) {
      assert ReignOk(s.reigns, t);
    }
    forall t | t in s'.reigns ensures ReignOk(s'.reigns, t) {
      assert ReignOk(s.reigns, t);
      MatchedGrows(s.reigns, s'.reigns, s.reigns[t].log);
      if t == t0 {
        AppendedIsMatched(s'.reigns, s.reigns[t0].log, t0);
      }
    }
  }

  /** Appending to the newest reign keeps its log rooted in itself. */
  lemma AppendedIsMatched(r: map<nat, Reign>, log: seq<Entry>, t: nat)
    requires t in r && Matched(r, log) && |r[t].log| == |log| + 1 && r[t].log[..|log|] == log
    requires r[t].log[|log|].index == |log| && r[t].log[|log|].term == t
    ensures Matched(r, r[t].log)
  {
    var now := r[t].log;
    forall j | 0 < j < |now| ensures Rooted(r, now, j) {
      if j < |log| {
        assert Rooted(r, log, j);
        assert now[j] == log[j];
      }
    }
  }

  lemma ProposeLogs(s: State, n: NodeId, data: Command)
    requires Inv(s) && n in s.nodes && s.e.members[n].role == Leader && s.e.members[n].ballot.term in s.reigns
    requires Grow(s.reigns, Propose(s, n, data).reigns) && ReignsOk(Propose(s, n, data).reigns)
    ensures LogInv(Propose(s, n, data))
  {
    var s' := Propose(s, n, data);
    var t0 := s.e.members[n].ballot.term;
    assert NodeOk(s, n);
    forall m | m in s'.nodes ensures NodeOk(s', m) {
      assert NodeOk(s, m);
      if m == n {
        assert ReignOk(s'.reigns, t0);
      } else {
        assert E.RoleOk(s.e, m) && E.RoleOk(s.e, n);
        MatchedGrows(s.reigns, s'.reigns, s.nodes[m].log);
      }
    }
    forall m, t | (m, t) in s'.acked ensures AckOk(s', m, t) {
      if (m, t) != (n, t0) {
        assert AckOk(s, m, t);
        AckGrows(s, s', m, t);
      }
    }
  }

  /** After a step that raises only the acknowledgement of node n in its current term, votes keep their standing. */
  lemma VotesGrow(s: State, s': State, n: NodeId)
    requires Inv(s) && s'.e == s.e && s'.voteLog == s.voteLog && Grow(s.reigns, s'.reigns)
             && s'.reigns.Keys == s.reigns.Keys
    requires n in s.nodes && s'.nodes.Keys == s.nodes.Keys
    requires var t := s.e.members[n].ballot.term;
             t in s.reigns && (n, t) in s'.acked && s'.acked == s.acked[(n, t) := s'.acked[(n, t)]]
    requires forall m :: m in s.nodes && m != n ==> s'.nodes[m].log == s.nodes[m].log
    ensures VoteLogInv(s')
  {
    forall v | v in s'.voteLog ensures BallotOk(s', v) {
      assert BallotOk(s, v) && E.VoteRecorded(s.e, v);
      BallotGrows(s, s', v);
    }
    forall v | v in s'.voteLog ensures AskOk(s', v) {
      assert AskOk(s, v);
    }
    forall t, p | t in s'.e.wins && p in s'.e.wins[t].support ensures SupportOk(s', t, p) {
      assert SupportOk(s, t, p) && Kept(s.reigns, s'.reigns, t);
      assert Inherited(s'.reigns, t) == Inherited(s.reigns, t);
    }
  }

  lemma ProposeCommits(s: State, n: NodeId, data: Command)
    requires Inv(s) && n in s.nodes && s.e.members[n].role == Leader && s.e.members[n].ballot.term in s.reigns
    requires Grow(s.reigns, Propose(s, n, data).reigns)
    ensures CommitInv(Propose(s, n, data))
  {
    var s' := Propose(s, n, data);
    var t := s.e.members[n].ballot.term;
    assert NodeOk(s, n);
    assert (n, t) in s.acked ==> AckOk(s, n, t);
    hide LogInv, VoteLogInv, Keys, Grow;
    forall m | m in s'.nodes ensures CommitOk(s', m) {
      assert CommitOk(s, m);
      CommitGrows(s, s', m);
    }
    forall a | a in s'.applied ensures AppliedOk(s', a) {
      assert AppliedOk(s, a);
    }
  }

  /** A leader appends to its own log and thereby acknowledges itself. */
  lemma ProposeKeeps(s: State, n: NodeId, data: Command)
    requires Inv(s) && n in s.nodes && s.e.members[n].role == Leader
    ensures s.e.members[n].ballot.term in s.reigns && Inv(Propose(s, n, data))
  {
    ProposeReigns(s, n, data);
    ProposeLogs(s, n, data);
    VotesGrow(s, Propose(s, n, data), n);
    ProposeCommits(s, n, data);
  }

  // ------------------------------------------------------- accepting a reign

  /** The certificate that index c of the reign of term t is committed. */
  ghost predicate Certified(s: State, t: nat, c: nat, ct: nat, ck: nat) {
    && Chosen(s, ct, ck)
    && ct <= t
    && c <= ck
    && t in s.reigns
    && Has(s.reigns, s.reigns[t].log, ct, c)
  }

  ghost predicate MayAccept(s: State, n: NodeId, hi: nat, commit: nat, ct: nat, ck: nat)
    requires n in s.nodes && n in s.e.members
  {
    var t := s.e.members[n].ballot.term;
    && t in s.reigns
    && hi < |s.reigns[t].log|
    && (commit > s.nodes[n].commit ==> commit <= hi && Certified(s, t, commit, ct, ck))
  }

  /** Accepting never cuts into the committed prefix. */
  lemma AcceptKeepsCommitted(s: State, n: NodeId, hi: nat)
    requires Inv(s) && n in s.nodes
    requires var t := s.e.members[n].ballot.term; t in s.reigns && hi < |s.reigns[t].log|
    ensures CommitOk(s, n)
    ensures Agree(s.nodes[n].log, Accepted(s.reigns, s.nodes[n].log, s.e.members[n].ballot.term, hi), s.nodes[n].commit)
  {
    assert CommitOk(s, n) && NodeOk(s, n);
    CommittedInReign(s, n, s.e.members[n].ballot.term);
  }

  /** What was acknowledged before is still held, or the accepted reign itself was elected without it. */
  lemma AcceptKeepsAck(s: State, n: NodeId, hi: nat, t: nat, k: nat)
    requires Keys(s) && NodeOk(s, n) && AckOk(s, n, t) && k <= s.acked[(n, t)]
    requires var u := s.e.members[n].ballot.term; u in s.reigns && hi < |s.reigns[u].log|
    ensures var u := s.e.members[n].ballot.term;
            Has(s.reigns, Accepted(s.reigns, s.nodes[n].log, u, hi), t, k) || Lost(s.reigns, t, k, u)
  {
    var u := s.e.members[n].ballot.term;
    var log := s.nodes[n].log;
    assert ReignOk(s.reigns, u);
    if Has(s.reigns, log, t, k) && t < u && !Has(s.reigns, Accepted(s.reigns, log, u, hi), t, k) {
      assert LacksAt(s.reigns, u, t, k);
    }
  }

  lemma AcceptAck(s: State, n: NodeId, hi: nat, commit: nat, ct: nat, ck: nat, m: NodeId, t: nat)
    requires Keys(s) && LogInv(s) && n in s.nodes && MayAccept(s, n, hi, commit, ct, ck)
    requires (m, t) in Accept(s, n, hi, commit, ct, ck).acked
    ensures AckOk(Accept(s, n, hi, commit, ct, ck), m, t)
  {
    var s' := Accept(s, n, hi, commit, ct, ck);
    var u := s.e.members[n].ballot.term;
    assert NodeOk(s, n) && ReignOk(s.reigns, u);
    AcceptedIsMatched(s.reigns, s.nodes[n].log, u, hi);
    if (m, t) in s.acked { assert AckOk(s, m, t); }
    if m == n {
      forall k | 0 <= k <= s'.acked[(n, t)]
        ensures Has(s'.reigns, s'.nodes[n].log, t, k) || Lost(s'.reigns, t, k, u)
      {
        if (n, t) in s.acked && k <= s.acked[(n, t)] {
          AcceptKeepsAck(s, n, hi, t, k);
        }
      }
    }
  }

  lemma AcceptLogs(s: State, n: NodeId, hi: nat, commit: nat, ct: nat, ck: nat)
    requires Keys(s) && LogInv(s) && n in s.nodes && MayAccept(s, n, hi, commit, ct, ck)
    ensures LogInv(Accept(s, n, hi, commit, ct, ck))
  {
    var s' := Accept(s, n, hi, commit, ct, ck);
    var u := s.e.members[n].ballot.term;
    assert NodeOk(s, n) && ReignOk(s.reigns, u);
    AcceptedIsMatched(s.reigns, s.nodes[n].log, u, hi);
    forall m | m in s'.nodes ensures NodeOk(s', m) {
      assert NodeOk(s, m);
      if m == n {
        assert s.e.members[n].role == Leader ==> Has(s.reigns, s.nodes[n].log, u, hi);
      }
    }
    forall m, t | (m, t) in s'.acked ensures AckOk(s', m, t) {
      AcceptAck(s, n, hi, commit, ct, ck, m, t);
    }
  }

  lemma AcceptedIsMatched(r: map<nat, Reign>, log: seq<Entry>, u: nat, hi: nat)
    requires u in r && ReignOk(r, u) && hi < |r[u].log| && Matched(r, log)
    ensures Matched(r, Accepted(r, log, u, hi)) && Has(r, Accepted(r, log, u, hi), u, hi)
  {
    var now := Accepted(r, log, u, hi);
    if !Has(r, log, u, hi) {
      forall j | 0 < j < |now| ensures Rooted(r, now, j) {
        assert Rooted(r, r[u].log, j);
      }
    }
  }

  lemma AcceptGrows(s: State, n: NodeId, hi: nat, commit: nat, ct: nat, ck: nat)
    requires ReignsOk(s.reigns) && n in s.nodes && n in s.e.members && MayAccept(s, n, hi, commit, ct, ck)
    ensures var s' := Accept(s, n, hi, commit, ct, ck); Grow(s.reigns, s'.reigns) && AcksGrow(s, s')
  {
    var s' := Accept(s, n, hi, commit, ct, ck);
    forall t | t in s.reigns ensures Kept(s.reigns, s'.reigns, t) {
      assert ReignOk(s.reigns, t);
    }
  }

  lemma AcceptCommits(s: State, n: NodeId, hi: nat, commit: nat, ct: nat, ck: nat)
    requires Inv(s) && n in s.nodes && MayAccept(s, n, hi, commit, ct, ck)
    ensures CommitInv(Accept(s, n, hi, commit, ct, ck))
  {
    var s' := Accept(s, n, hi, commit, ct, ck);
    var u := s.e.members[n].ballot.term;
    assert NodeOk(s, n);
    AcceptKeepsCommitted(s, n, hi);
    AcceptedIsMatched(s.reigns, s.nodes[n].log, u, hi);
    AcceptGrows(s, n, hi, commit, ct, ck);
    hide LogInv, VoteLogInv, Keys, Matched, Grow, AcksGrow;
    forall m | m in s'.nodes ensures CommitOk(s', m) {
      assert CommitOk(s, m);
      if m == n && commit > s.nodes[n].commit {
        ChosenGrows(s, s', ct, ck);
      } else {
        CommitGrows(s, s', m);
      }
    }
    hide Accepted, Chosen, Has;
    forall a | a in s'.applied ensures AppliedOk(s', a) {
      assert AppliedOk(s, a);
    }
  }

  /** Accepting a leader's entries: nothing acknowledged, voted on or committed is undone. */
  lemma AcceptKeeps(s: State, n: NodeId, hi: nat, commit: nat, ct: nat, ck: nat)
    requires Inv(s) && n in s.nodes && MayAccept(s, n, hi, commit, ct, ck)
    ensures Inv(Accept(s, n, hi, commit, ct, ck))
  {
    AcceptLogs(s, n, hi, commit, ct, ck);
    AcceptCommits(s, n, hi, commit, ct, ck);
    AcceptGrows(s, n, hi, commit, ct, ck);
    VotesGrow(s, Accept(s, n, hi, commit, ct, ck), n);
  }

  // ------------------------------------------------------- commit and apply

  /** Steps that move only commit indices and the record of applied entries. */
  ghost predicate CommitOnly(s: State, s': State) {
    && s'.e == s.e && s'.reigns == s.reigns && s'.voteLog == s.voteLog && s'.acked == s.acked
    && s'.nodes.Keys == s.nodes.Keys
    && forall m :: m in s.nodes ==> s'.nodes[m].log == s.nodes[m].log && s'.nodes[m].ackTerm == s.nodes[m].ackTerm
  }

  lemma CommitOnlyLogs(s: State, s': State)
    requires LogInv(s) && CommitOnly(s, s')
    ensures LogInv(s')
  {
    forall m | m in s'.nodes ensures NodeOk(s', m) { assert NodeOk(s, m); }
    forall m, t | (m, t) in s'.acked ensures AckOk(s', m, t) { assert AckOk(s, m, t); }
  }

  lemma CommitOnlyVotes(s: State, s': State)
    requires VoteLogInv(s) && CommitOnly(s, s')
    ensures VoteLogInv(s')
  {
    forall v | v in s'.voteLog ensures BallotOk(s', v) {
      assert BallotOk(s, v);
      forall t: nat, k: nat ensures Acked(s', v.voter, t, k) == Acked(s, v.voter, t, k) {}
    }
    forall v | v in s'.voteLog ensures AskOk(s', v) { assert AskOk(s, v); }
    forall t, p | t in s'.e.wins && p in s'.e.wins[t].support ensures SupportOk(s', t, p) { assert SupportOk(s, t, p); }
  }

  lemma CommitOnlyChosen(s: State, s': State, t: nat, k: nat)
    requires CommitOnly(s, s') && Chosen(s, t, k)
    ensures Chosen(s', t, k)
  {
    assert Ackers(s', t, k) == Ackers(s, t, k);
  }

  /** The commit rule: a leader commits an entry of its own term that a majority acknowledged in that term. */
  lemma AdvanceCommitKeeps(s: State, n: NodeId, k: nat)
    requires Inv(s) && n in s.nodes && s.e.members[n].role == Leader
    requires s.nodes[n].commit < k < |s.nodes[n].log| && Chosen(s, s.e.members[n].ballot.term, k)
    ensures Inv(AdvanceCommit(s, n, k))
  {
    var s' := AdvanceCommit(s, n, k);
    CommitOnlyLogs(s, s');
    CommitOnlyVotes(s, s');
    AdvancedCommits(s, n, k);
    hide LogInv, VoteLogInv, CommitInv;
  }

  lemma AdvancedCommits(s: State, n: NodeId, k: nat)
    requires Inv(s) && n in s.nodes && s.e.members[n].role == Leader
    requires s.nodes[n].commit < k < |s.nodes[n].log| && Chosen(s, s.e.members[n].ballot.term, k)
    ensures CommitInv(AdvanceCommit(s, n, k))
  {
    assert NodeOk(s, n);
    hide LogInv, VoteLogInv, Keys;
    var s' := AdvanceCommit(s, n, k);
    CommitOnlyChosen(s, s', s.e.members[n].ballot.term, k);
    forall m | m in s'.nodes ensures CommitOk(s', m) {
      assert CommitOk(s, m);
      if m != n && s.nodes[m].commit > 0 { CommitOnlyChosen(s, s', s.nodes[m].certTerm, s.nodes[m].certIndex); }
    }
    forall a | a in s'.applied ensures AppliedOk(s', a) { assert AppliedOk(s, a); }
  }

  lemma ApplyKeeps(s: State, n: NodeId, i: nat)
    requires Inv(s) && n in s.nodes && 0 < i <= s.nodes[n].commit
    ensures i < |s.nodes[n].log| && Inv(Apply(s, n, i))
  {
    assert CommitOk(s, n);
    var s' := Apply(s, n, i);
    CommitOnlyLogs(s, s');
    CommitOnlyVotes(s, s');
    forall m | m in s'.nodes ensures CommitOk(s', m) {
      assert CommitOk(s, m);
      if s.nodes[m].commit > 0 { CommitOnlyChosen(s, s', s.nodes[m].certTerm, s.nodes[m].certIndex); }
    }
    forall a | a in s'.applied ensures AppliedOk(s', a) { if a in s.applied { assert AppliedOk(s, a); } }
  }
}
