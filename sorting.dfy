/**
 * The standard library's stable `sort_by` on a comparison of one key, as a pure function:
 * stable insertion sort. The result is ordered by the key and is a permutation of the
 * input; elements with equal keys keep their input order.
 */
module Sorting {

  predicate SortedBy<T>(s: seq<T>, key: T -> real) {
    forall i, j :: 0 <= i < j < |s| ==> key(s[i]) <= key(s[j])
  }

  /** Inserts `x` after every element whose key is not above its own. */
  function Insert<T>(x: T, s: seq<T>, key: T -> real): (r: seq<T>)
    requires SortedBy(s, key)
    ensures |r| == |s| + 1
    ensures SortedBy(r, key)
    ensures multiset(r) == multiset(s) + multiset{x}
  {
    if |s| == 0 then [x]
    else if key(x) < key(s[|s| - 1]) then
      var front := s[..|s| - 1];
      assert s == front + [s[|s| - 1]];
      var inserted := Insert(x, front, key);
      BoundedByPermutation(inserted, front, x, key, key(s[|s| - 1]));
      inserted + [s[|s| - 1]]
    else
      s + [x]
  }

  /** A permutation of `s` and `x` keeps every key under a bound common to both. */
  lemma BoundedByPermutation<T>(r: seq<T>, s: seq<T>, x: T, key: T -> real, bound: real)
    requires multiset(r) == multiset(s) + multiset{x}
    requires key(x) <= bound && forall y :: y in s ==> key(y) <= bound
    ensures forall y :: y in r ==> key(y) <= bound
  {
    forall y | y in r
      ensures key(y) <= bound
    {
      assert y in multiset(r);
      if y != x {
        assert y in s;
      }
    }
  }

  /** `v.sort_by(|a, b| key(a).cmp(&key(b)))` — ascending, stable. */
  function SortByKey<T>(s: seq<T>, key: T -> real): (r: seq<T>)
    ensures |r| == |s|
    ensures SortedBy(r, key)
    ensures multiset(r) == multiset(s)
  {
    if |s| == 0 then []
    else
      assert s == s[..|s| - 1] + [s[|s| - 1]];
      Insert(s[|s| - 1], SortByKey(s[..|s| - 1], key), key)
  }

  /** The elements of `s` whose key is `k`, in order. */
  function WithKey<T>(s: seq<T>, key: T -> real, k: real): (r: seq<T>)
    ensures |r| <= |s|
    ensures forall i :: 0 <= i < |r| ==> key(r[i]) == k
  {
    if |s| == 0 then []
    else WithKey(s[..|s| - 1], key, k) + (if key(s[|s| - 1]) == k then [s[|s| - 1]] else [])
  }

  lemma {:induction false} InsertStable<T>(x: T, s: seq<T>, key: T -> real, k: real)
    requires SortedBy(s, key)
    ensures WithKey(Insert(x, s, key), key, k) == WithKey(s, key, k) + (if key(x) == k then [x] else [])
  {
    if |s| > 0 && key(x) < key(s[|s| - 1]) {
      var front := s[..|s| - 1];
      assert SortedBy(front, key);
      InsertStable(x, front, key, k);
      InsertBeforeLast(x, s, key, k);
    } else {
      var r := s + [x];
      assert r[..|r| - 1] == s;
    }
  }

  lemma InsertBeforeLast<T>(x: T, s: seq<T>, key: T -> real, k: real)
    requires SortedBy(s, key) && |s| > 0 && key(x) < key(s[|s| - 1])
    requires SortedBy(s[..|s| - 1], key)
    requires WithKey(Insert(x, s[..|s| - 1], key), key, k)
          == WithKey(s[..|s| - 1], key, k) + (if key(x) == k then [x] else [])
    ensures WithKey(Insert(x, s, key), key, k) == WithKey(s, key, k) + (if key(x) == k then [x] else [])
  {
    var front := s[..|s| - 1];
    var last := s[|s| - 1];
    var inserted := Insert(x, front, key);
    var r := Insert(x, s, key);
    assert r == inserted + [last];
    assert r[..|r| - 1] == inserted;
    assert s[..|s| - 1] == front;
    var tail := if key(last) == k then [last] else [];
    assert WithKey(r, key, k) == WithKey(inserted, key, k) + tail;
    assert WithKey(s, key, k) == WithKey(front, key, k) + tail;
    if key(x) == k {
      assert tail == [];
    } else {
      assert WithKey(inserted, key, k) == WithKey(front, key, k) + [];
    }
  }

  /**
   * Stability: for every key, the elements carrying it come out of the sort in the
   * order they went in.
   */
  lemma {:induction false} SortStable<T>(s: seq<T>, key: T -> real, k: real)
    ensures WithKey(SortByKey(s, key), key, k) == WithKey(s, key, k)
  {
    if |s| > 0 {
      SortStable(s[..|s| - 1], key, k);
      InsertStable(s[|s| - 1], SortByKey(s[..|s| - 1], key), key, k);
    }
  }

  /** No element of the input has a key strictly between two neighbours of the sorted output. */
  lemma NoKeyBetweenNeighbours<T>(xs: seq<T>, key: T -> real, i: nat, x: T)
    requires i + 1 < |SortByKey(xs, key)|
    requires x in xs
    ensures var sorted := SortByKey(xs, key);
      !(key(sorted[i]) < key(x) < key(sorted[i + 1]))
  {
    var sorted := SortByKey(xs, key);
    assert x in multiset(sorted);
    var j :| 0 <= j < |sorted| && sorted[j] == x;
    if j <= i {
      assert key(sorted[j]) <= key(sorted[i]);
    } else if j > i + 1 {
      assert key(sorted[i + 1]) <= key(sorted[j]);
    }
  }

  /** Two neighbours of the sorted output come from the input, in key order. */
  lemma SortedNeighbours<T>(xs: seq<T>, key: T -> real, i: nat)
    requires i + 1 < |SortByKey(xs, key)|
    ensures var sorted := SortByKey(xs, key);
      key(sorted[i]) <= key(sorted[i + 1]) && sorted[i] in xs && sorted[i + 1] in xs
  {
    var sorted := SortByKey(xs, key);
    assert sorted[i] in multiset(sorted);
    assert sorted[i + 1] in multiset(sorted);
  }

  /** Sorting keeps exactly the elements of the input. */
  lemma SortedMembers<T>(xs: seq<T>, key: T -> real)
    ensures forall x :: x in SortByKey(xs, key) <==> x in xs
  {
    var sorted := SortByKey(xs, key);
    assert forall x :: x in sorted <==> x in multiset(sorted);
  }

  predicate DistinctKeys<T>(xs: seq<T>, key: T -> real) {
    forall i, j :: 0 <= i < j < |xs| ==> key(xs[i]) != key(xs[j])
  }

  /** With pairwise distinct keys no element occurs twice. */
  lemma {:induction false} DistinctKeysOnce<T>(xs: seq<T>, key: T -> real, v: T)
    requires DistinctKeys(xs, key)
    ensures multiset(xs)[v] <= 1
  {
    if |xs| > 0 {
      var front := xs[..|xs| - 1];
      assert xs == front + [xs[|xs| - 1]];
      assert DistinctKeys(front, key);
      DistinctKeysOnce(front, key, v);
      if xs[|xs| - 1] == v {
        assert forall j :: 0 <= j < |front| ==> front[j] != v;
        assert v !in front;
      }
    }
  }

  /** With pairwise distinct keys the sorted output is strictly increasing. */
  lemma SortedNeighboursDistinct<T>(xs: seq<T>, key: T -> real, i: nat)
    requires DistinctKeys(xs, key)
    requires i + 1 < |SortByKey(xs, key)|
    ensures var sorted := SortByKey(xs, key); key(sorted[i]) < key(sorted[i + 1])
  {
    var sorted := SortByKey(xs, key);
    SortedNeighbours(xs, key, i);
    NeighboursDiffer(xs, key, i);
    var a := IndexIn(xs, sorted[i]);
    var b := IndexIn(xs, sorted[i + 1]);
    DistinctAt(xs, key, a, b);
  }

  /** Two different positions of a sequence with distinct keys hold different keys. */
  lemma DistinctAt<T>(xs: seq<T>, key: T -> real, a: nat, b: nat)
    requires DistinctKeys(xs, key) && a < |xs| && b < |xs| && a != b
    ensures key(xs[a]) != key(xs[b])
  {
    if b < a {
      assert key(xs[b]) != key(xs[a]);
    }
  }

  /** With pairwise distinct keys no element sits twice in a row in the sorted output. */
  lemma NeighboursDiffer<T>(xs: seq<T>, key: T -> real, i: nat)
    requires DistinctKeys(xs, key)
    requires i + 1 < |SortByKey(xs, key)|
    ensures var sorted := SortByKey(xs, key); sorted[i] != sorted[i + 1]
  {
    var sorted := SortByKey(xs, key);
    DistinctKeysOnce(xs, key, sorted[i]);
    if sorted[i + 1] == sorted[i] {
      RepeatCounts(sorted, i);
    }
  }

  /** An element that sits twice in a row occurs at least twice. */
  lemma RepeatCounts<T>(s: seq<T>, i: nat)
    requires i + 1 < |s| && s[i] == s[i + 1]
    ensures multiset(s)[s[i]] >= 2
  {
    assert s == s[..i] + [s[i], s[i]] + s[i + 2..];
  }

  /** Sorting input with pairwise distinct keys gives output with pairwise distinct keys. */
  lemma SortedDistinct<T>(xs: seq<T>, key: T -> real)
    requires DistinctKeys(xs, key)
    ensures DistinctKeys(SortByKey(xs, key), key)
  {
    var sorted := SortByKey(xs, key);
    forall i | 0 <= i < |sorted| - 1
      ensures key(sorted[i]) < key(sorted[i + 1])
    {
      SortedNeighboursDistinct(xs, key, i);
    }
    StrictNeighboursDistinct(sorted, key);
  }

  /** A sorted sequence whose neighbours differ in key has pairwise distinct keys. */
  lemma StrictNeighboursDistinct<T>(s: seq<T>, key: T -> real)
    requires SortedBy(s, key)
    requires forall i :: 0 <= i < |s| - 1 ==> key(s[i]) < key(s[i + 1])
    ensures DistinctKeys(s, key)
  {
    forall i, j | 0 <= i < j < |s|
      ensures key(s[i]) < key(s[j])
    {
      assert key(s[i]) < key(s[i + 1]);
      assert j == i + 1 || key(s[i + 1]) <= key(s[j]);
    }
  }

  /** Two sorted sequences with pairwise distinct keys and the same elements are the same sequence. */
  lemma {:induction false} SortedDistinctUnique<T>(a: seq<T>, b: seq<T>, key: T -> real)
    requires SortedBy(a, key) && SortedBy(b, key)
    requires DistinctKeys(a, key) && DistinctKeys(b, key)
    requires forall x :: x in a <==> x in b
    ensures a == b
  {
    SameMembersEmpty(a, b);
    if |a| > 0 {
      SortedHeadsEqual(a, b, key);
      SameMembersTails(a, b, key);
      SortedDistinctUnique(a[1..], b[1..], key);
      assert a == [a[0]] + a[1..] && b == [b[0]] + b[1..];
    }
  }

  /** Sequences with the same elements are empty together. */
  lemma SameMembersEmpty<T>(a: seq<T>, b: seq<T>)
    requires forall x :: x in a <==> x in b
    ensures |a| == 0 <==> |b| == 0
  {
    assert forall x :: x in multiset(a) <==> x in a;
    assert forall x :: x in multiset(b) <==> x in b;
    assert |a| == 0 ==> multiset(a) == multiset{};
    assert |b| == 0 ==> multiset(b) == multiset{};
    assert multiset(a) == multiset{} <==> multiset(b) == multiset{};
  }

  /** Sorted, with distinct keys and the same elements, both start with the same element. */
  lemma SortedHeadsEqual<T>(a: seq<T>, b: seq<T>, key: T -> real)
    requires SortedBy(a, key) && SortedBy(b, key)
    requires DistinctKeys(a, key)
    requires forall x :: x in a <==> x in b
    requires |a| > 0 && |b| > 0
    ensures a[0] == b[0]
  {
    var j := IndexIn(b, a[0]);
    var i := IndexIn(a, b[0]);
    assert key(b[0]) <= key(b[j]) && key(a[0]) <= key(a[i]);
  }

  /** With the same head and distinct keys, the tails have the same elements too. */
  lemma SameMembersTails<T>(a: seq<T>, b: seq<T>, key: T -> real)
    requires DistinctKeys(a, key) && DistinctKeys(b, key)
    requires forall x :: x in a <==> x in b
    requires |a| > 0 && |b| > 0 && a[0] == b[0]
    ensures forall x :: x in a[1..] <==> x in b[1..]
  {
    forall x
      ensures x in a[1..] <==> x in b[1..]
    {
      if x in a[1..] {
        var p := IndexIn(a[1..], x);
        DistinctAt(a, key, 0, p + 1);
        var q := IndexIn(b, x);
        assert q != 0 && b[1..][q - 1] == x;
      }
      if x in b[1..] {
        var p := IndexIn(b[1..], x);
        DistinctAt(b, key, 0, p + 1);
        var q := IndexIn(a, x);
        assert q != 0 && a[1..][q - 1] == x;
      }
    }
  }

  /** With pairwise distinct keys, the sorted order depends only on which elements there are. */
  lemma SortDeterminedByMembers<T>(xs: seq<T>, ys: seq<T>, key: T -> real)
    requires DistinctKeys(xs, key) && DistinctKeys(ys, key)
    requires forall x :: x in xs <==> x in ys
    ensures SortByKey(xs, key) == SortByKey(ys, key)
  {
    SortedDistinct(xs, key);
    SortedDistinct(ys, key);
    SortedMembers(xs, key);
    SortedMembers(ys, key);
    SortedDistinctUnique(SortByKey(xs, key), SortByKey(ys, key), key);
  }

  /** A position at which an element occurs. */
  lemma IndexIn<T>(xs: seq<T>, x: T) returns (a: nat)
    requires x in xs
    ensures a < |xs| && xs[a] == x
  {
    a :| a < |xs| && xs[a] == x;
  }
}
