/**
  Per-slot counting. Both zone aggregations scan the shots one by one and give
  each shot to at most one zone; that outcome is an assignment: for the shot at
  position p, `a[p]` is `Some(i)` when zone i took it and `None` when no zone did.
  This module counts and sums over such an assignment.
 */
module Tally {
  import opened Wrappers

  /** Number of positions assigned to slot `i`. */
  function Count(a: seq<Option<nat>>, i: nat): (c: nat)
    ensures c <= |a|
  {
    if a == [] then 0
    else Count(a[..|a| - 1], i) + (if a[|a| - 1] == Some(i) then 1 else 0)
  }

  /** Sum of the weights `w[p]` of the positions assigned to slot `i`. */
  function Weight(a: seq<Option<nat>>, w: seq<real>, i: nat): (s: real)
    requires |w| == |a|
    ensures (forall p :: 0 <= p < |w| ==> 0.0 <= w[p]) ==> 0.0 <= s
  {
    if a == [] then 0.0
    else Weight(a[..|a| - 1], w[..|w| - 1], i) + (if a[|a| - 1] == Some(i) then w[|w| - 1] else 0.0)
  }

  /** Number of positions assigned to some slot. */
  function Matched(a: seq<Option<nat>>): nat {
    if a == [] then 0 else Matched(a[..|a| - 1]) + (if a[|a| - 1].Some? then 1 else 0)
  }

  /** Number of positions assigned to a slot below `n`. */
  function MatchedBelow(a: seq<Option<nat>>, n: nat): nat {
    if a == [] then 0
    else MatchedBelow(a[..|a| - 1], n) + (if a[|a| - 1].Some? && a[|a| - 1].value < n then 1 else 0)
  }

  /** Count(a, 0) + ... + Count(a, n - 1). */
  function Total(a: seq<Option<nat>>, n: nat): nat {
    if n == 0 then 0 else Total(a, n - 1) + Count(a, n - 1)
  }

  /** Sum of `key` over the elements of `s`: the per-zone counts added up. */
  function SumOf<T>(s: seq<T>, key: T -> nat): nat {
    if s == [] then 0 else SumOf(s[..|s| - 1], key) + key(s[|s| - 1])
  }

  /** When element i of `s` holds the count of slot i, its first n elements add up to the total below n. */
  lemma {:induction false} SumOfIsTotal<T>(s: seq<T>, key: T -> nat, a: seq<Option<nat>>, n: nat)
    requires n <= |s|
    requires forall i :: 0 <= i < |s| ==> key(s[i]) == Count(a, i)
    ensures SumOf(s[..n], key) == Total(a, n)
  {
    if n > 0 {
      assert s[..n][..n - 1] == s[..n - 1];
      SumOfIsTotal(s, key, a, n - 1);
    }
  }

  /** Appending one position adds its own contribution to its slot and nothing elsewhere. */
  lemma {:induction false} CountAppend(a: seq<Option<nat>>, o: Option<nat>, i: nat)
    ensures Count(a + [o], i) == Count(a, i) + (if o == Some(i) then 1 else 0)
  {
    assert (a + [o])[..|a|] == a;
  }

  lemma {:induction false} WeightAppend(a: seq<Option<nat>>, w: seq<real>, o: Option<nat>, x: real, i: nat)
    requires |w| == |a|
    ensures Weight(a + [o], w + [x], i) == Weight(a, w, i) + (if o == Some(i) then x else 0.0)
  {
    assert (a + [o])[..|a|] == a;
    assert (w + [x])[..|w|] == w;
  }

  lemma {:induction false} MatchedBelowStep(a: seq<Option<nat>>, n: nat)
    ensures MatchedBelow(a, n + 1) == MatchedBelow(a, n) + Count(a, n)
  {
    if a != [] {
      MatchedBelowStep(a[..|a| - 1], n);
    }
  }

  /** Summing the slot counts of slots 0..n-1 counts each position assigned below n once. */
  lemma {:induction false} TotalIsMatchedBelow(a: seq<Option<nat>>, n: nat)
    ensures Total(a, n) == MatchedBelow(a, n)
  {
    if n == 0 {
      MatchedBelowNone(a);
    } else {
      TotalIsMatchedBelow(a, n - 1);
      MatchedBelowStep(a, n - 1);
    }
  }

  lemma {:induction false} MatchedBelowNone(a: seq<Option<nat>>)
    ensures MatchedBelow(a, 0) == 0
  {
    if a != [] {
      MatchedBelowNone(a[..|a| - 1]);
    }
  }

  lemma {:induction false} MatchedBelowAll(a: seq<Option<nat>>, n: nat)
    requires forall p :: 0 <= p < |a| && a[p].Some? ==> a[p].value < n
    ensures MatchedBelow(a, n) == Matched(a)
  {
    if a != [] {
      MatchedBelowAll(a[..|a| - 1], n);
    }
  }

  /** At most every position is matched, and all are exactly when none is unassigned. */
  lemma {:induction false} MatchedBound(a: seq<Option<nat>>)
    ensures Matched(a) <= |a|
    ensures Matched(a) == |a| <==> forall p :: 0 <= p < |a| ==> a[p].Some?
  {
    if a != [] {
      var b := a[..|a| - 1];
      MatchedBound(b);
      assert forall p :: 0 <= p < |b| ==> b[p] == a[p];
    }
  }

  /**
    The slot counts of slots 0..n-1 add up to at most the number of positions,
    and to exactly that number when every position is assigned to one of them.
   */
  lemma TotalBound(a: seq<Option<nat>>, n: nat)
    requires forall p :: 0 <= p < |a| && a[p].Some? ==> a[p].value < n
    ensures Total(a, n) <= |a|
    ensures Total(a, n) == |a| <==> forall p :: 0 <= p < |a| ==> a[p].Some?
  {
    TotalIsMatchedBelow(a, n);
    MatchedBelowAll(a, n);
    MatchedBound(a);
  }
}
