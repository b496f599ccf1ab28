/**
  Ordering of zones by shot count. Python's `sorted(..., key=k, reverse=True)`
  is a stable sort in descending key order: elements with equal keys keep
  their original order. `SortDesc` is that sort written as an insertion sort.
 */
module Ranking {

  /** Keys never increase along `s`. */
  ghost predicate Descending<T>(s: seq<T>, key: T -> nat) {
    forall i, j :: 0 <= i < j < |s| ==> key(s[i]) >= key(s[j])
  }

  /** The elements of `s` whose key is `k`, in their order in `s`. */
  function WithKey<T>(s: seq<T>, key: T -> nat, k: nat): seq<T> {
    if s == [] then []
    else (if key(s[0]) == k then [s[0]] else []) + WithKey(s[1..], key, k)
  }

  /** The elements of `s` with a positive key, in their order in `s`. */
  function Positive<T>(s: seq<T>, key: T -> nat): (r: seq<T>)
    ensures |r| <= |s|
    ensures forall i :: 0 <= i < |r| ==> key(r[i]) > 0
  {
    if s == [] then []
    else (if key(s[0]) > 0 then [s[0]] else []) + Positive(s[1..], key)
  }

  /** Puts `x` before the first element whose key is not larger than its own. */
  function Insert<T>(x: T, s: seq<T>, key: T -> nat): (r: seq<T>)
    ensures multiset(r) == multiset(s) + multiset{x}
  {
    if s == [] || key(x) >= key(s[0]) then [x] + s
    else
      assert s == [s[0]] + s[1..];
      [s[0]] + Insert(x, s[1..], key)
  }

  lemma {:induction false} InsertDescending<T>(x: T, s: seq<T>, key: T -> nat)
    requires Descending(s, key)
    ensures Descending(Insert(x, s, key), key)
  {
    if s == [] || key(x) >= key(s[0]) {
      DescendingCons(x, s, key);
    } else {
      DescendingTail(s, key);
      InsertDescending(x, s[1..], key);
      InsertBounded(x, s[1..], key, key(s[0]));
      DescendingCons(s[0], Insert(x, s[1..], key), key);
    }
  }

  lemma DescendingTail<T>(s: seq<T>, key: T -> nat)
    requires Descending(s, key) && s != []
    ensures Descending(s[1..], key)
    ensures forall i :: 0 <= i < |s[1..]| ==> key(s[1..][i]) <= key(s[0])
  {
    forall i, j | 0 <= i < j < |s[1..]| ensures key(s[1..][i]) >= key(s[1..][j]) {
      assert s[1..][i] == s[i + 1] && s[1..][j] == s[j + 1];
    }
    forall i | 0 <= i < |s[1..]| ensures key(s[1..][i]) <= key(s[0]) {
      assert s[1..][i] == s[i + 1];
    }
  }

  /** Inserting an element no larger than a bound into a list bounded by it keeps the bound. */
  lemma InsertBounded<T>(x: T, s: seq<T>, key: T -> nat, b: nat)
    requires key(x) <= b
    requires forall i :: 0 <= i < |s| ==> key(s[i]) <= b
    ensures forall i :: 0 <= i < |Insert(x, s, key)| ==> key(Insert(x, s, key)[i]) <= b
  {
    var r := Insert(x, s, key);
    forall i | 0 <= i < |r| ensures key(r[i]) <= b {
      assert r[i] in multiset(r);
      if r[i] != x {
        assert r[i] in multiset(s);
        var j :| 0 <= j < |s| && s[j] == r[i];
      }
    }
  }

  lemma DescendingCons<T>(h: T, t: seq<T>, key: T -> nat)
    requires Descending(t, key)
    requires forall i :: 0 <= i < |t| ==> key(t[i]) <= key(h)
    ensures Descending([h] + t, key)
  {
    var r := [h] + t;
    forall i, j | 0 <= i < j < |r| ensures key(r[i]) >= key(r[j]) {
      assert r[j] == t[j - 1];
      if i > 0 {
        assert r[i] == t[i - 1];
      }
    }
  }

  /** Stable sort by descending key: a descending permutation of `s`. */
  function SortDesc<T>(s: seq<T>, key: T -> nat): (r: seq<T>)
    ensures multiset(r) == multiset(s) && |r| == |s|
    ensures Descending(r, key)
  {
    if s == [] then []
    else
      assert s == [s[0]] + s[1..];
      InsertDescending(s[0], SortDesc(s[1..], key), key);
      Insert(s[0], SortDesc(s[1..], key), key)
  }

  lemma {:induction false} InsertWithKey<T>(x: T, s: seq<T>, key: T -> nat, k: nat)
    ensures WithKey(Insert(x, s, key), key, k) == (if key(x) == k then [x] else []) + WithKey(s, key, k)
  {
    if s == [] || key(x) >= key(s[0]) {
      WithKeyCons(x, s, key, k);
    } else {
      var t, rest := s[1..], Insert(x, s[1..], key);
      var hx: seq<T> := if key(x) == k then [x] else [];
      var h0: seq<T> := if key(s[0]) == k then [s[0]] else [];
      assert Insert(x, s, key) == [s[0]] + rest;
      InsertWithKey(x, t, key, k);
      WithKeyCons(s[0], rest, key, k);
      WithKeyCons(s[0], t, key, k);
      assert [s[0]] + t == s;
      SwapEmpty(h0, hx, WithKey(t, key, k));
    }
  }

  /** Two sequences, one of them empty, can be prepended in either order. */
  lemma SwapEmpty<T>(a: seq<T>, b: seq<T>, c: seq<T>)
    requires a == [] || b == []
    ensures a + (b + c) == b + (a + c)
  {
  }

  lemma WithKeyCons<T>(h: T, t: seq<T>, key: T -> nat, k: nat)
    ensures WithKey([h] + t, key, k) == (if key(h) == k then [h] else []) + WithKey(t, key, k)
  {
    assert ([h] + t)[1..] == t;
  }

  /** Stability: the elements sharing any one key keep their original order. */
  lemma {:induction false} SortDescStable<T>(s: seq<T>, key: T -> nat, k: nat)
    ensures WithKey(SortDesc(s, key), key, k) == WithKey(s, key, k)
  {
    if s != [] {
      SortDescStable(s[1..], key, k);
      InsertWithKey(s[0], SortDesc(s[1..], key), key, k);
    }
  }

  /** `Positive` keeps every element with a positive key as often as `s` holds it, and no other. */
  lemma {:induction false} PositiveMultiset<T>(s: seq<T>, key: T -> nat, z: T)
    ensures multiset(Positive(s, key))[z] == if key(z) > 0 then multiset(s)[z] else 0
  {
    if s != [] {
      PositiveMultiset(s[1..], key, z);
      assert s == [s[0]] + s[1..];
    }
  }

  /** In a descending sequence the positive-key elements form a prefix. */
  lemma {:induction false} PositivePrefix<T>(s: seq<T>, key: T -> nat)
    requires Descending(s, key)
    ensures Positive(s, key) == s[..|Positive(s, key)|]
    ensures forall i :: |Positive(s, key)| <= i < |s| ==> key(s[i]) == 0
  {
    if s != [] {
      assert Descending(s[1..], key) by {
        forall i, j | 0 <= i < j < |s[1..]| ensures key(s[1..][i]) >= key(s[1..][j]) {
          assert s[1..][i] == s[i + 1] && s[1..][j] == s[j + 1];
        }
      }
      PositivePrefix(s[1..], key);
      if key(s[0]) == 0 {
        assert forall i :: 0 <= i < |s| ==> key(s[i]) == 0;
        PositiveOfZeros(s, key);
      }
    }
  }

  lemma {:induction false} PositiveOfZeros<T>(s: seq<T>, key: T -> nat)
    requires forall i :: 0 <= i < |s| ==> key(s[i]) == 0
    ensures Positive(s, key) == []
  {
    if s != [] {
      PositiveOfZeros(s[1..], key);
    }
  }

  /**
    The elements with a positive key, highest key first and ties in their
    original order: a descending permutation of the positive-key elements.
   */
  function RankedPositive<T>(s: seq<T>, key: T -> nat): (r: seq<T>)
    ensures forall i :: 0 <= i < |r| ==> key(r[i]) > 0
    ensures Descending(r, key)
    ensures multiset(r) == multiset(Positive(s, key))
    ensures forall k :: k > 0 ==> WithKey(r, key, k) == WithKey(s, key, k)
  {
    RankedPositiveProperties(s, key);
    Positive(SortDesc(s, key), key)
  }

  lemma RankedPositiveProperties<T>(s: seq<T>, key: T -> nat)
    ensures Descending(Positive(SortDesc(s, key), key), key)
    ensures multiset(Positive(SortDesc(s, key), key)) == multiset(Positive(s, key))
    ensures forall k :: k > 0 ==> WithKey(Positive(SortDesc(s, key), key), key, k) == WithKey(s, key, k)
  {
    var sorted := SortDesc(s, key);
    PositivePrefix(sorted, key);
    DescendingPrefix(sorted, key, |Positive(sorted, key)|);
    PositivePreservesPermutation(sorted, s, key);
    forall k | k > 0 ensures WithKey(Positive(sorted, key), key, k) == WithKey(s, key, k) {
      SortDescStable(s, key, k);
      PositiveWithKey(sorted, key, k);
    }
  }

  lemma RankedPositiveSize<T>(s: seq<T>, key: T -> nat)
    ensures |RankedPositive(s, key)| == |Positive(s, key)|
  {
    assert |RankedPositive(s, key)| == |multiset(RankedPositive(s, key))|;
  }

  /** A list whose first m elements, and only those, have positive keys has m positive-key elements. */
  lemma {:induction false} PositiveCountOfPrefix<T>(s: seq<T>, key: T -> nat, m: nat)
    requires m <= |s|
    requires forall i :: 0 <= i < |s| ==> (key(s[i]) > 0 <==> i < m)
    ensures |Positive(s, key)| == m
  {
    if m == 0 {
      PositiveOfZeros(s, key);
    } else {
      forall i | 0 <= i < |s[1..]| ensures key(s[1..][i]) > 0 <==> i < m - 1 {
        assert s[1..][i] == s[i + 1];
      }
      PositiveCountOfPrefix(s[1..], key, m - 1);
    }
  }

  /** After sorting, the elements with positive keys are the first |Positive(s)| ones. */
  lemma SortedPositivePrefix<T>(s: seq<T>, key: T -> nat)
    ensures |Positive(s, key)| <= |SortDesc(s, key)|
    ensures forall k :: 0 <= k < |SortDesc(s, key)| ==> (key(SortDesc(s, key)[k]) > 0 <==> k < |Positive(s, key)|)
  {
    var sorted := SortDesc(s, key);
    PositivePrefix(sorted, key);
    PositivePreservesPermutation(sorted, s, key);
    var p := Positive(sorted, key);
    assert |p| == |multiset(p)| == |multiset(Positive(s, key))| == |Positive(s, key)|;
    forall k | 0 <= k < |p| ensures key(sorted[k]) > 0 {
      assert sorted[k] == p[k];
    }
  }

  lemma DescendingPrefix<T>(s: seq<T>, key: T -> nat, n: nat)
    requires Descending(s, key) && n <= |s|
    ensures Descending(s[..n], key)
  {
    forall i, j | 0 <= i < j < n ensures key(s[..n][i]) >= key(s[..n][j]) {
      assert s[..n][i] == s[i] && s[..n][j] == s[j];
    }
  }

  lemma PositivePreservesPermutation<T>(s: seq<T>, t: seq<T>, key: T -> nat)
    requires multiset(s) == multiset(t)
    ensures multiset(Positive(s, key)) == multiset(Positive(t, key))
  {
    var ms, mt := multiset(Positive(s, key)), multiset(Positive(t, key));
    forall z ensures ms[z] == mt[z] {
      PositiveMultiset(s, key, z);
      PositiveMultiset(t, key, z);
    }
    MultisetExt(ms, mt);
  }

  lemma MultisetExt<T>(a: multiset<T>, b: multiset<T>)
    requires forall z :: a[z] == b[z]
    ensures a == b
  {
  }

  lemma {:induction false} PositiveWithKey<T>(s: seq<T>, key: T -> nat, k: nat)
    requires k > 0
    ensures WithKey(Positive(s, key), key, k) == WithKey(s, key, k)
  {
    if s != [] {
      PositiveWithKey(s[1..], key, k);
      var head := if key(s[0]) > 0 then [s[0]] else [];
      WithKeyConcat(head, Positive(s[1..], key), key, k);
    }
  }

  lemma {:induction false} WithKeyConcat<T>(s: seq<T>, t: seq<T>, key: T -> nat, k: nat)
    ensures WithKey(s + t, key, k) == WithKey(s, key, k) + WithKey(t, key, k)
  {
    if s != [] {
      assert (s + t)[1..] == s[1..] + t;
      WithKeyConcat(s[1..], t, key, k);
    } else {
      assert s + t == t;
    }
  }
}
