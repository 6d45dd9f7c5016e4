/**
 Raft over uncompacted logs, with the history its safety argument needs: the log of every reign
 (the leader of a term), the log each vote was cast on, and how far each node acknowledged each reign.
 */
module Protocol {
  import opened Types
  import opened Quorums
  import E = Election

  /** `certTerm`, `certIndex` name the chosen entry that makes `log[..commit+1]` committed. */
  datatype Node = Node(log: seq<Entry>, commit: nat, certTerm: nat, certIndex: nat, ackTerm: nat)

  /** The leader's log in one term; `start` is its length at the election. */
  datatype Reign = Reign(start: nat, log: seq<Entry>)

  datatype Applied = Applied(node: NodeId, index: nat, entry: Entry)

  datatype State = State(
    e: E.State,
    nodes: map<NodeId, Node>,
    reigns: map<nat, Reign>,
    voteLog: map<E.Vote, seq<Entry>>,
    acked: map<(NodeId, nat), nat>,
    applied: set<Applied>)

  // ------------------------------------------------------------ log relations

  /** The two logs hold the same entries through index k. */
  ghost predicate Agree(a: seq<Entry>, b: seq<Entry>, k: nat) {
    k < |a| && k < |b| && forall i :: 0 <= i <= k ==> a[i] == b[i]
  }

  /** `log` agrees with the reign of term t through index k. */
  ghost predicate Has(reigns: map<nat, Reign>, log: seq<Entry>, t: nat, k: nat) {
    t in reigns && Agree(log, reigns[t].log, k)
  }

  /** Entry j was created by the leader of its term, on top of the same prefix. */
  ghost predicate Rooted(reigns: map<nat, Reign>, log: seq<Entry>, j: nat)
    requires j < |log|
  {
    log[j].index == j && Has(reigns, log, log[j].term, j)
  }

  ghost predicate Matched(reigns: map<nat, Reign>, log: seq<Entry>) {
    && |log| > 0
    && log[0] == ROOT
    && forall j {:trigger Rooted(reigns, log, j)} :: 0 < j < |log| ==> Rooted(reigns, log, j)
  }

  ghost predicate ReignOk(reigns: map<nat, Reign>, t: nat)
    requires t in reigns
  {
    var r := reigns[t];
    && 0 < t
    && 0 < r.start <= |r.log|
    && Matched(reigns, r.log)
    && (forall j :: 0 <= j < r.start ==> r.log[j].term < t)
    && (forall j :: r.start <= j < |r.log| ==> r.log[j].term == t)
  }

  ghost predicate ReignsOk(reigns: map<nat, Reign>) {
    forall t {:trigger ReignOk(reigns, t)} :: t in reigns ==> ReignOk(reigns, t)
  }

  /** What the leader of term t was elected with. */
  ghost function Inherited(reigns: map<nat, Reign>, t: nat): seq<Entry>
    requires t in reigns && reigns[t].start <= |reigns[t].log|
  {
    reigns[t].log[..reigns[t].start]
  }

  /** A leader of some term in (t, hi] was elected without the reign of t through k. */
  ghost predicate Lost(reigns: map<nat, Reign>, t: nat, k: nat, hi: int) {
    exists u :: t < u <= hi && LacksAt(reigns, u, t, k)
  }

  ghost predicate LacksAt(reigns: map<nat, Reign>, u: nat, t: nat, k: nat) {
    && u in reigns
    && reigns[u].start <= |reigns[u].log|
    && t in reigns
    && k < |reigns[t].log|
    && !Has(reigns, Inherited(reigns, u), t, k)
  }

  ghost predicate NewerOrEqual(c: seq<Entry>, m: seq<Entry>)
    requires |c| > 0 && |m| > 0
  {
    UpToDate(LastTerm(c), |c| - 1, LastTerm(m), |m| - 1)
  }

  // --------------------------------------------------------------- invariants

  ghost predicate Acked(s: State, n: NodeId, t: nat, k: nat) {
    (n, t) in s.acked && k <= s.acked[(n, t)]
  }

  ghost function Ackers(s: State, t: nat, k: nat): set<NodeId> {
    set n | n in s.nodes && Acked(s, n, t, k)
  }

  /** The commit rule of section 5.4.2: an entry of the leader's own term on a majority. */
  ghost predicate Chosen(s: State, t: nat, k: nat) {
    && t in s.reigns
    && k < |s.reigns[t].log|
    && s.reigns[t].log[k].term == t
    && Majority(s.nodes.Keys, Ackers(s, t, k))
  }

  ghost predicate Keys(s: State) {
    && s.nodes.Keys == s.e.members.Keys
    && s.reigns.Keys == s.e.wins.Keys
    && s.voteLog.Keys == s.e.votes
    && E.VoteInv(s.e)
    && E.WinInv(s.e)
    && ReignsOk(s.reigns)
  }

  ghost predicate NodeOk(s: State, n: NodeId) {
    && n in s.nodes
    && n in s.e.members
    && var x := s.nodes[n];
    var m := s.e.members[n];
    && Matched(s.reigns, x.log)
    && (forall j :: 0 <= j < |x.log| ==> x.log[j].term <= x.ackTerm)
    && x.ackTerm <= m.ballot.term
    && (m.role == Leader ==> LeaderOk(s, n))
  }

  ghost predicate LeaderOk(s: State, n: NodeId)
    requires n in s.nodes && n in s.e.members
  {
    var x := s.nodes[n];
    var t := s.e.members[n].ballot.term;
    && t in s.reigns
    && x.log == s.reigns[t].log
    && (|x.log| > s.reigns[t].start ==> Acked(s, n, t, |x.log| - 1))
  }

  ghost predicate CommitOk(s: State, n: NodeId) {
    && n in s.nodes
    && var x := s.nodes[n];
    && x.commit < |x.log|
    && (x.commit > 0 ==>
          && Chosen(s, x.certTerm, x.certIndex)
          && x.commit <= x.certIndex
          && x.certTerm <= x.ackTerm
          && Has(s.reigns, x.log, x.certTerm, x.commit))
  }

  /** An acknowledged prefix is still there unless a later leader was elected without it. */
  ghost predicate AckOk(s: State, n: NodeId, t: nat) {
    && n in s.nodes
    && (n, t) in s.acked
    && t in s.reigns
    && s.acked[(n, t)] < |s.reigns[t].log|
    && t <= s.nodes[n].ackTerm
    && forall k :: 0 <= k <= s.acked[(n, t)] ==>
         Has(s.reigns, s.nodes[n].log, t, k) || Lost(s.reigns, t, k, s.nodes[n].ackTerm)
  }

  /** The vote took part, or may still take part, in the election of its term. */
  ghost predicate Live(s: State, v: E.Vote) {
    v.term in s.e.wins ==> s.e.wins[v.term].leader == v.cand && v.voter in s.e.wins[v.term].support
  }

  /** The voter's log held every earlier acknowledged prefix that no leader in between had dropped. */
  ghost predicate BallotOk(s: State, v: E.Vote) {
    && v in s.voteLog
    && Matched(s.reigns, s.voteLog[v])
    && (Live(s, v) ==> forall t: nat, k: nat :: t < v.term && Acked(s, v.voter, t, k) ==>
          Has(s.reigns, s.voteLog[v], t, k) || Lost(s.reigns, t, k, v.term - 1))
  }

  /** While its term has no leader, the log a candidate asked with is at least as new as its voters' logs. */
  ghost predicate AskOk(s: State, v: E.Vote) {
    && v in s.voteLog
    && v.cand in s.nodes
    && v.cand in s.e.members
    && var m := s.e.members[v.cand];
    m.ballot.term == v.term && m.role == Candidate && v.term !in s.e.wins ==>
      |s.nodes[v.cand].log| > 0 && |s.voteLog[v]| > 0 && NewerOrEqual(s.nodes[v.cand].log, s.voteLog[v])
  }

  ghost predicate SupportOk(s: State, t: nat, p: NodeId) {
    && t in s.reigns
    && t in s.e.wins
    && 0 < s.reigns[t].start <= |s.reigns[t].log|
    && var v := E.Vote(p, t, s.e.wins[t].leader);
    v in s.voteLog && |s.voteLog[v]| > 0 && NewerOrEqual(Inherited(s.reigns, t), s.voteLog[v])
  }

  ghost predicate AppliedOk(s: State, a: Applied) {
    && a.node in s.nodes
    && 0 < a.index <= s.nodes[a.node].commit < |s.nodes[a.node].log|
    && s.nodes[a.node].log[a.index] == a.entry
  }

  ghost predicate LogInv(s: State) {
    && (forall n {:trigger NodeOk(s, n)} :: n in s.nodes ==> NodeOk(s, n))
    && (forall n, t {:trigger AckOk(s, n, t)} :: (n, t) in s.acked ==> AckOk(s, n, t))
  }

  ghost predicate VoteLogInv(s: State) {
    && (forall v {:trigger BallotOk(s, v)} :: v in s.voteLog ==> BallotOk(s, v))
    && (forall v {:trigger AskOk(s, v)} :: v in s.voteLog ==> AskOk(s, v))
    && (forall t, p {:trigger SupportOk(s, t, p)} :: t in s.e.wins && p in s.e.wins[t].support ==> SupportOk(s, t, p))
  }

  ghost predicate CommitInv(s: State) {
    && (forall n {:trigger CommitOk(s, n)} :: n in s.nodes ==> CommitOk(s, n))
    && (forall a {:trigger AppliedOk(s, a)} :: a in s.applied ==> AppliedOk(s, a))
  }

  ghost predicate Inv(s: State) {
    Keys(s) && LogInv(s) && VoteLogInv(s) && CommitInv(s)
  }

  // ----------------------------------------------------------- safety theorems

  /** Log matching: same index and term means the same prefix. */
  lemma LogMatching(reigns: map<nat, Reign>, a: seq<Entry>, b: seq<Entry>, i: nat)
    requires Matched(reigns, a) && Matched(reigns, b)
    requires i < |a| && i < |b| && a[i].term == b[i].term
    ensures Agree(a, b, i)
  {
    if i > 0 {
      assert Rooted(reigns, a, i) && Rooted(reigns, b, i);
    }
  }

  /** Terms never decrease along a log. */
  lemma TermsGrow(reigns: map<nat, Reign>, log: seq<Entry>, i: nat, j: nat)
    requires ReignsOk(reigns) && Matched(reigns, log) && i <= j < |log|
    ensures log[i].term <= log[j].term
  {
    if 0 < j {
      assert Rooted(reigns, log, j);
      assert ReignOk(reigns, log[j].term);
      assert log[i] == reigns[log[j].term].log[i];
    }
  }

  /** The up-to-date check hands a chosen prefix from voter to candidate. */
  lemma VoteCarriesChosen(reigns: map<nat, Reign>, t: nat, k: nat, u: nat, vlog: seq<Entry>)
    requires ReignsOk(reigns) && t in reigns && u in reigns && t < u
    requires k < |reigns[t].log| && reigns[t].log[k].term == t
    requires Matched(reigns, vlog) && Has(reigns, vlog, t, k)
    requires ReignOk(reigns, u) && NewerOrEqual(Inherited(reigns, u), vlog)
    requires forall w {:trigger ReignOk(reigns, w)} :: t < w < u && w in reigns ==>
               ReignOk(reigns, w) && Has(reigns, Inherited(reigns, w), t, k)
    ensures Has(reigns, Inherited(reigns, u), t, k)
  {
    var mine, full := Inherited(reigns, u), reigns[u].log;
    var j := |mine| - 1;
    var w := mine[j].term;
    assert ReignOk(reigns, t);
    assert vlog[k].term == t;
    TermsGrow(reigns, vlog, k, |vlog| - 1);
    assert full[j].term == w >= t > 0;
    assert Rooted(reigns, full, j);
    if w > t {
      assert ReignOk(reigns, w);
      assert reigns[w].log[j].term == w;
      assert j >= |Inherited(reigns, w)| > k;
    }
  }

  /** Leader completeness: whatever a majority acknowledged in term t, every later leader was elected with. */
  lemma {:induction false} LeaderCompleteness(s: State, t: nat, k: nat, u: nat)
    requires Keys(s) && VoteLogInv(s) && Chosen(s, t, k) && t < u && u in s.reigns
    ensures ReignOk(s.reigns, u) && Has(s.reigns, Inherited(s.reigns, u), t, k)
    decreases u
  {
    forall w | t < w < u && w in s.reigns
      ensures ReignOk(s.reigns, w) && Has(s.reigns, Inherited(s.reigns, w), t, k)
    {
      LeaderCompleteness(s, t, k, w);
    }
    var win := s.e.wins[u];
    assert E.WinOk(s.e, u) && ReignOk(s.reigns, u);
    var p := Overlap(s.nodes.Keys, Ackers(s, t, k), win.support);
    var v := E.Vote(p, u, win.leader);
    assert SupportOk(s, u, p) && BallotOk(s, v) && Live(s, v);
    assert Acked(s, p, t, k);
    assert !Lost(s.reigns, t, k, u - 1);
    VoteCarriesChosen(s.reigns, t, k, u, s.voteLog[v]);
  }

  /** Agreement with a reign passes on to the reigns that inherited it. */
  lemma Inherits(reigns: map<nat, Reign>, log: seq<Entry>, t: nat, c: nat, k: nat, u: nat)
    requires u in reigns && ReignOk(reigns, u) && c <= k
    requires Has(reigns, log, t, c) && Has(reigns, Inherited(reigns, u), t, k)
    ensures Has(reigns, log, u, c)
  {
  }

  /** A committed prefix is part of every reign from its certificate's term on. */
  lemma CommittedInReign(s: State, n: NodeId, u: nat)
    requires Keys(s) && VoteLogInv(s) && n in s.nodes && CommitOk(s, n) && Matched(s.reigns, s.nodes[n].log)
    requires u in s.reigns && (s.nodes[n].commit > 0 ==> s.nodes[n].certTerm <= u)
    ensures Has(s.reigns, s.nodes[n].log, u, s.nodes[n].commit)
  {
    var x := s.nodes[n];
    assert ReignOk(s.reigns, u);
    if 0 < x.commit && x.certTerm < u {
      LeaderCompleteness(s, x.certTerm, x.certIndex, u);
      Inherits(s.reigns, x.log, x.certTerm, x.commit, x.certIndex, u);
    }
  }

  /** State machine safety: two committed prefixes never differ. */
  lemma CommitsAgree(s: State, n: NodeId, m: NodeId, i: nat)
    requires Inv(s) && n in s.nodes && m in s.nodes
    requires i <= s.nodes[n].commit && i <= s.nodes[m].commit
    ensures CommitOk(s, n) && CommitOk(s, m)
    ensures s.nodes[n].log[i] == s.nodes[m].log[i]
  {
    var x, y := s.nodes[n], s.nodes[m];
    assert NodeOk(s, n) && NodeOk(s, m) && CommitOk(s, n) && CommitOk(s, m);
    if i > 0 {
      var u := Max(x.certTerm, y.certTerm);
      CommittedInReign(s, n, u);
      CommittedInReign(s, m, u);
      assert x.log[i] == s.reigns[u].log[i];
    }
  }
}
