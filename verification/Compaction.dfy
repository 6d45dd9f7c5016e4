/** A compacted log stands for a full one: what each log operation does to both. */
module Compaction {
  import opened Types
  import opened Server
  import P = Protocol
  import S = ProtocolSteps

  /** `log` is `full` from `base` on, with a boundary entry that keeps only index and term. */
  ghost predicate Compacts(log: seq<Entry>, base: nat, full: seq<Entry>) {
    && base < |full|
    && |log| == |full| - base
    && log[0].index == base
    && log[0].term == full[base].term
    && forall i {:trigger full[i]} :: base < i < |full| ==> log[i - base] == full[i]
  }

  lemma CompactedShape(reigns: map<nat, P.Reign>, log: seq<Entry>, base: nat, full: seq<Entry>)
    requires Compacts(log, base, full) && P.Matched(reigns, full)
    ensures Shape(log, base)
    ensures LastIndex(log, base) == |full| - 1 && LastTerm(log) == full[|full| - 1].term
    ensures forall i :: base <= i < |full| ==>
              EntryAt(log, base, i).Some? && EntryAt(log, base, i).value.term == full[i].term
  {
    forall k | 0 < k < |log| ensures log[k].index == base + k {
      assert P.Rooted(reigns, full, base + k);
    }
  }

  // ------------------------------------------------------------------- appending

  ghost predicate Slice(reigns: map<nat, P.Reign>, t: nat, prev: nat, es: seq<Entry>) {
    && t in reigns
    && prev + |es| < |reigns[t].log|
    && forall i :: 0 <= i < |es| ==> es[i] == reigns[t].log[prev + 1 + i]
  }

  /** Truncating at a conflict, or appending at the end, gives the leader's log through hi. */
  lemma PrefixPlusEntry(log: seq<Entry>, base: nat, full: seq<Entry>, lead: seq<Entry>, hi: nat)
    requires Compacts(log, base, full) && base < hi < |lead| && hi <= |full| && P.Agree(full, lead, hi - 1)
    ensures Compacts(log[..hi - base] + [lead[hi]], base, lead[..hi + 1])
  {
    var now, want := log[..hi - base] + [lead[hi]], lead[..hi + 1];
    forall i | base < i < |want| ensures now[i - base] == want[i] {
      if i < hi { assert log[i - base] == full[i] == lead[i]; }
    }
    assert full[base] == lead[base];
  }

  /** One turn of the append loop, on a log f that already agrees with the leader just below. */
  lemma MergeOneCompacts(reigns: map<nat, P.Reign>, f: seq<Entry>, log: seq<Entry>, base: nat, t: nat, hi: nat)
    requires P.ReignsOk(reigns) && t in reigns && 0 < hi < |reigns[t].log|
    requires Compacts(log, base, f) && P.Matched(reigns, f) && P.Has(reigns, f, t, hi - 1)
    requires base < hi
    ensures Compacts(MergeOne(log, base, reigns[t].log[hi]), base, S.Accepted(reigns, f, t, hi))
  {
    var lead := reigns[t].log;
    assert P.ReignOk(reigns, t) && P.Rooted(reigns, lead, hi);
    PrefixPlusEntry(log, base, f, lead, hi);
    if hi < |f| {
      assert log[hi - base] == f[hi];
      if f[hi].term == lead[hi].term {
        P.LogMatching(reigns, f, lead, hi);
      } else {
        assert !P.Has(reigns, f, t, hi);
      }
    } else {
      assert log[..hi - base] == log;
      assert !P.Has(reigns, f, t, hi);
    }
  }

  /** Entries up to the snapshot boundary match, and the loop skips them. */
  lemma MergeOneSkips(reigns: map<nat, P.Reign>, f: seq<Entry>, log: seq<Entry>, base: nat, t: nat, hi: nat)
    requires P.ReignsOk(reigns) && t in reigns && 0 < hi < |reigns[t].log|
    requires Compacts(log, base, f) && P.Has(reigns, f, t, base) && hi <= base
    ensures MergeOne(log, base, reigns[t].log[hi]) == log && S.Accepted(reigns, f, t, hi) == f
  {
    assert P.ReignOk(reigns, t) && P.Rooted(reigns, reigns[t].log, hi);
  }

  /** Accepting in two instalments is accepting at once. */
  lemma AcceptedTwice(reigns: map<nat, P.Reign>, full: seq<Entry>, t: nat, hi: nat)
    requires t in reigns && 0 < hi < |reigns[t].log|
    ensures S.Accepted(reigns, S.Accepted(reigns, full, t, hi - 1), t, hi) == S.Accepted(reigns, full, t, hi)
  {
  }

  /** One turn of the append loop, on the log left by the turns before it. */
  lemma MergeTurn(reigns: map<nat, P.Reign>, full: seq<Entry>, log: seq<Entry>, base: nat, t: nat, hi: nat)
    requires P.ReignsOk(reigns) && t in reigns && 0 < hi < |reigns[t].log|
    requires P.Matched(reigns, full) && P.Has(reigns, full, t, base)
    requires P.Has(reigns, S.Accepted(reigns, full, t, hi - 1), t, hi - 1)
    requires Compacts(log, base, S.Accepted(reigns, full, t, hi - 1))
    ensures Compacts(MergeOne(log, base, reigns[t].log[hi]), base, S.Accepted(reigns, full, t, hi))
  {
    assert P.ReignOk(reigns, t);
    S.AcceptedIsMatched(reigns, full, t, hi - 1);
    AcceptedTwice(reigns, full, t, hi);
    var f := S.Accepted(reigns, full, t, hi - 1);
    if hi <= base {
      MergeOneSkips(reigns, f, log, base, t, hi);
    } else {
      MergeOneCompacts(reigns, f, log, base, t, hi);
    }
  }

  lemma SliceFront(reigns: map<nat, P.Reign>, t: nat, prev: nat, es: seq<Entry>)
    requires Slice(reigns, t, prev, es) && es != []
    ensures Slice(reigns, t, prev, es[..|es| - 1]) && es[|es| - 1] == reigns[t].log[prev + |es|]
  {
  }

  lemma AcceptedHas(reigns: map<nat, P.Reign>, full: seq<Entry>, t: nat, prev: nat, hi: nat)
    requires t in reigns && prev <= hi < |reigns[t].log| && P.Has(reigns, full, t, prev)
    ensures P.Has(reigns, S.Accepted(reigns, full, t, hi), t, hi)
  {
  }

  /** The append loop on the compacted log is acceptance of the leader's log on the full one. */
  lemma {:induction false} MergeCompacts(reigns: map<nat, P.Reign>, full: seq<Entry>, log: seq<Entry>, base: nat,
                                         t: nat, prev: nat, es: seq<Entry>)
    requires P.ReignsOk(reigns) && Slice(reigns, t, prev, es)
    requires P.Matched(reigns, full) && P.Has(reigns, full, t, base) && P.Has(reigns, full, t, prev)
    requires Compacts(log, base, full)
    ensures Compacts(Merge(log, base, es), base, S.Accepted(reigns, full, t, prev + |es|))
  {
    if es != [] {
      var front, hi := es[..|es| - 1], prev + |es|;
      SliceFront(reigns, t, prev, es);
      AcceptedHas(reigns, full, t, prev, hi - 1);
      hide P.ReignsOk, P.Matched, P.Has, Compacts, S.Accepted, MergeOne;
      MergeCompacts(reigns, full, log, base, t, prev, front);
      MergeTurn(reigns, full, Merge(log, base, front), base, t, hi);
    }
  }

  // ------------------------------------------------------------------- compacting

  lemma {:induction false} KeepAfterIsSuffix(log: seq<Entry>, base: nat, i: nat)
    requires (forall k :: 0 <= k < |log| ==> log[k].index == base + k) && base <= i
    ensures KeepAfter(log, i) == if i - base + 1 <= |log| then log[i - base + 1..] else []
  {
    if log != [] {
      var front := log[..|log| - 1];
      KeepAfterIsSuffix(front, base, i);
    }
  }

  /** Cutting at index i inside the log leaves the same full log. */
  lemma {:induction false} CutCompacts(log: seq<Entry>, base: nat, full: seq<Entry>, i: nat, term: nat)
    requires Shape(log, base) && Compacts(log, base, full) && base <= i < |full| && term == full[i].term
    ensures Compacts([Entry(i, term, Undecodable)] + KeepAfter(log, i), i, full)
  {
    KeepAfterIsSuffix(log, base, i);
    var cut := [Entry(i, term, Undecodable)] + KeepAfter(log, i);
    forall j | i < j < |full| ensures cut[j - i] == full[j] {
      assert cut[j - i] == log[j - base];
    }
  }

  /** Installing a snapshot of the leader's log at index i, on a log that ends by i or matches there. */
  lemma {:induction false} InstallCompacts(reigns: map<nat, P.Reign>, full: seq<Entry>, log: seq<Entry>, base: nat,
                                           t: nat, i: nat)
    requires P.ReignsOk(reigns) && t in reigns && i < |reigns[t].log|
    requires P.Matched(reigns, full) && Compacts(log, base, full) && base <= i
    requires |full| - 1 <= i || full[i].term == reigns[t].log[i].term
    ensures Compacts([Entry(i, reigns[t].log[i].term, Undecodable)] + KeepAfter(log, i), i,
                     S.Accepted(reigns, full, t, i))
  {
    assert P.ReignOk(reigns, t);
    CompactedShape(reigns, log, base, full);
    KeepAfterIsSuffix(log, base, i);
    if i < |full| && full[i].term == reigns[t].log[i].term {
      P.LogMatching(reigns, full, reigns[t].log, i);
      CutCompacts(log, base, full, i, full[i].term);
    }
  }
}
