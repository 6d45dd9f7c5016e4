/** What the append loop computes, said without the loop. */
module Merging {
  import opened Types
  import opened Server

  /** Entries lo+1, lo+2, ... in order. */
  ghost predicate Contiguous(es: seq<Entry>, lo: nat) {
    forall k :: 0 <= k < |es| ==> es[k].index == lo + 1 + k
  }

  /** The log holds a different entry at e's index. */
  predicate Conflicts(log: seq<Entry>, base: nat, e: Entry) {
    base <= e.index < base + |log| && log[e.index - base].term != e.term
  }

  ghost predicate NoConflict(log: seq<Entry>, base: nat, es: seq<Entry>) {
    forall k :: 0 <= k < |es| ==> !Conflicts(log, base, es[k])
  }

  ghost predicate FirstConflict(log: seq<Entry>, base: nat, es: seq<Entry>, k: nat) {
    k < |es| && Conflicts(log, base, es[k]) && NoConflict(log, base, es[..k])
  }

  /** Everything es says, from the base on, is in the log already. */
  ghost predicate Holds(log: seq<Entry>, base: nat, es: seq<Entry>) {
    forall k :: 0 <= k < |es| && base <= es[k].index ==>
      es[k].index < base + |log| && log[es[k].index - base].term == es[k].term
  }

  /** Without a conflict the longer of the two logs survives. */
  lemma {:induction false} MergeExtends(log: seq<Entry>, base: nat, lo: nat, es: seq<Entry>)
    requires Shape(log, base) && Contiguous(es, lo) && lo <= LastIndex(log, base) && NoConflict(log, base, es)
    ensures var last := LastIndex(log, base);
            Merge(log, base, es) == if lo + |es| <= last then log else log + es[last - lo..]
  {
    if es != [] {
      var front, e, last := es[..|es| - 1], es[|es| - 1], LastIndex(log, base);
      MergeExtends(log, base, lo, front);
      assert !Conflicts(log, base, e);
      if lo + |es| > last {
        assert es[last - lo..] == front[last - lo..] + [e];
      }
    }
  }

  /** With one, the log is cut at the first conflict and the rest of the request follows. */
  lemma {:induction false} MergeCuts(log: seq<Entry>, base: nat, lo: nat, es: seq<Entry>, k: nat)
    requires Shape(log, base) && Contiguous(es, lo) && lo <= LastIndex(log, base) && FirstConflict(log, base, es, k)
    ensures Merge(log, base, es) == log[..es[k].index - base] + es[k..]
  {
    var front, e := es[..|es| - 1], es[|es| - 1];
    if k == |es| - 1 {
      assert front == es[..k];
      MergeExtends(log, base, lo, front);
      assert es[k..] == [e];
    } else {
      assert front[..k] == es[..k];
      MergeCuts(log, base, lo, front, k);
      assert es[k..] == front[k..] + [e];
    }
  }

  lemma {:induction false} FindConflict(log: seq<Entry>, base: nat, es: seq<Entry>) returns (k: nat)
    ensures k <= |es| && NoConflict(log, base, es[..k]) && (k < |es| ==> FirstConflict(log, base, es, k))
  {
    if es == [] {
      k := 0;
    } else {
      var front := es[..|es| - 1];
      k := FindConflict(log, base, front);
      assert front[..k] == es[..k];
      if k == |front| && !Conflicts(log, base, es[k]) {
        k := |es|;
      }
    }
  }

  /** In every case the log is kept, or cut after its first k agreeing entries and continued with the rest. */
  lemma MergeCases(log: seq<Entry>, base: nat, lo: nat, es: seq<Entry>) returns (k: nat)
    requires Shape(log, base) && Contiguous(es, lo) && base <= lo <= LastIndex(log, base)
    ensures k <= |es| && lo + k <= LastIndex(log, base) && NoConflict(log, base, es[..k])
    ensures Merge(log, base, es) == if k == |es| then log else log[..lo + k + 1 - base] + es[k..]
  {
    k := FindConflict(log, base, es);
    if k < |es| {
      MergeCuts(log, base, lo, es, k);
    } else {
      assert es[..k] == es;
      MergeExtends(log, base, lo, es);
      if lo + |es| > LastIndex(log, base) {
        k := LastIndex(log, base) - lo;
        assert log[..lo + k + 1 - base] == log;
        assert forall j :: 0 <= j < k ==> es[..k][j] == es[j];
      }
    }
  }

  lemma ExtendHolds(log: seq<Entry>, base: nat, lo: nat, es: seq<Entry>)
    requires Shape(log, base) && Contiguous(es, lo) && lo <= LastIndex(log, base) < lo + |es|
             && NoConflict(log, base, es)
    ensures var now := log + es[LastIndex(log, base) - lo..];
            Shape(now, base) && Holds(now, base, es) && LastIndex(now, base) == lo + |es|
  {
    var now := log + es[LastIndex(log, base) - lo..];
    forall j | 0 <= j < |es| && base <= es[j].index
      ensures es[j].index < base + |now| && now[es[j].index - base].term == es[j].term
    {
      assert !Conflicts(log, base, es[j]);
    }
  }

  lemma CutHolds(log: seq<Entry>, base: nat, lo: nat, es: seq<Entry>, k: nat)
    requires Shape(log, base) && Contiguous(es, lo) && lo <= LastIndex(log, base) && FirstConflict(log, base, es, k)
    ensures var now := log[..es[k].index - base] + es[k..];
            Shape(now, base) && Holds(now, base, es) && LastIndex(now, base) == lo + |es|
  {
    var now := log[..es[k].index - base] + es[k..];
    forall j | 0 <= j < |es| && base <= es[j].index
      ensures es[j].index < base + |now| && now[es[j].index - base].term == es[j].term
    {
      if j < k { assert !Conflicts(log, base, es[..k][j]); }
    }
  }

  /** After the merge the log has its shape, holds the request, and keeps what lies before the request. */
  lemma {:induction false} MergeHolds(log: seq<Entry>, base: nat, lo: nat, es: seq<Entry>)
    requires Shape(log, base) && Contiguous(es, lo) && lo <= LastIndex(log, base)
    ensures var now := Merge(log, base, es);
            && Shape(now, base) && Holds(now, base, es) && lo + |es| <= LastIndex(now, base)
            && forall i :: base <= i <= lo ==> EntryAt(now, base, i) == EntryAt(log, base, i)
  {
    var k := FindConflict(log, base, es);
    if k < |es| {
      MergeCuts(log, base, lo, es, k);
      CutHolds(log, base, lo, es, k);
    } else {
      assert es[..k] == es;
      MergeExtends(log, base, lo, es);
      if lo + |es| > LastIndex(log, base) {
        ExtendHolds(log, base, lo, es);
      } else {
        forall j | 0 <= j < |es| && base <= es[j].index
          ensures es[j].index < base + |log| && log[es[j].index - base].term == es[j].term
        {
          assert !Conflicts(log, base, es[j]);
        }
      }
    }
  }

  /** Without a conflict at or below c, everything through c is kept. */
  lemma {:induction false} MergeKeepsThrough(log: seq<Entry>, base: nat, lo: nat, es: seq<Entry>, c: nat)
    requires Shape(log, base) && Contiguous(es, lo) && lo <= LastIndex(log, base) && base <= c <= LastIndex(log, base)
    requires forall k :: 0 <= k < |es| && Conflicts(log, base, es[k]) ==> es[k].index > c
    ensures var now := Merge(log, base, es);
            Shape(now, base) && c <= LastIndex(now, base) && forall i :: base <= i <= c ==>
              EntryAt(now, base, i) == EntryAt(log, base, i)
  {
    MergeHolds(log, base, lo, es);
    var k := FindConflict(log, base, es);
    if k < |es| {
      MergeCuts(log, base, lo, es, k);
    } else {
      assert es[..k] == es;
      MergeExtends(log, base, lo, es);
    }
  }

  /** A request changes the log exactly when the log does not hold it already. */
  lemma {:induction false} MergeKeepsIff(log: seq<Entry>, base: nat, lo: nat, es: seq<Entry>)
    requires Shape(log, base) && Contiguous(es, lo) && lo <= LastIndex(log, base)
    ensures Merge(log, base, es) == log <==> Holds(log, base, es)
  {
    MergeHolds(log, base, lo, es);
    if Holds(log, base, es) {
      assert NoConflict(log, base, es);
      MergeExtends(log, base, lo, es);
    }
  }

  lemma PartHolds(log: seq<Entry>, base: nat, lo: nat, es: seq<Entry>, i: nat, j: nat)
    requires Shape(log, base) && Contiguous(es, lo) && Holds(log, base, es) && lo + |es| <= LastIndex(log, base)
             && i <= j <= |es|
    ensures Contiguous(es[i..j], lo + i) && Holds(log, base, es[i..j]) && lo + i <= LastIndex(log, base)
  {
    forall k | 0 <= k < |es[i..j]|
      ensures es[i..j][k].index == lo + i + 1 + k
      ensures base <= es[i..j][k].index ==>
                es[i..j][k].index < base + |log| && log[es[i..j][k].index - base].term == es[i..j][k].term
    {
      assert es[i..j][k] == es[i + k];
    }
  }

  /** A repeated request, or any stale part of it, changes nothing. */
  lemma {:induction false} MergeAgain(log: seq<Entry>, base: nat, lo: nat, es: seq<Entry>, i: nat, j: nat)
    requires Shape(log, base) && Contiguous(es, lo) && lo <= LastIndex(log, base) && i <= j <= |es|
    ensures Merge(Merge(log, base, es), base, es[i..j]) == Merge(log, base, es)
  {
    MergeHolds(log, base, lo, es);
    PartHolds(Merge(log, base, es), base, lo, es, i, j);
    hide *;
    MergeKeepsIff(Merge(log, base, es), base, lo + i, es[i..j]);
  }

  /** Two requests in a row are one longer request. */
  lemma {:induction false} MergeInTwo(log: seq<Entry>, base: nat, a: seq<Entry>, b: seq<Entry>)
    ensures Merge(log, base, a + b) == Merge(Merge(log, base, a), base, b)
  {
    if b == [] {
      assert a + b == a;
    } else {
      MergeInTwo(log, base, a, b[..|b| - 1]);
      assert (a + b)[..|a + b| - 1] == a + b[..|b| - 1];
    }
  }

  /** A gap before the request breaks the shape, and nothing else does. */
  lemma {:induction false} MergeShapeIff(log: seq<Entry>, base: nat, lo: nat, es: seq<Entry>)
    requires Shape(log, base) && Contiguous(es, lo) && es != []
    ensures Shape(Merge(log, base, es), base) <==> lo <= LastIndex(log, base)
  {
    if lo <= LastIndex(log, base) {
      MergeHolds(log, base, lo, es);
    } else {
      MergeGap(log, base, lo, es);
    }
  }

  lemma {:induction false} MergeGap(log: seq<Entry>, base: nat, lo: nat, es: seq<Entry>)
    requires Shape(log, base) && Contiguous(es, lo) && es != [] && lo > LastIndex(log, base)
    ensures |Merge(log, base, es)| > |log| && Merge(log, base, es)[|log|] == es[0]
  {
    var front := es[..|es| - 1];
    if front == [] {
      assert Merge(log, base, front) == log;
    } else {
      MergeGap(log, base, lo, front);
    }
  }
}
