/**
 * Descending sort by a real-valued key, as `xs.sort((a, b) => key(b) - key(a))` does in
 * ECMAScript 2019 and later, where Array.prototype.sort is stable: elements with equal keys keep
 * their relative order. `SortDesc` is the specification (a stable insertion sort on sequences);
 * `SortDescInPlace` is the in-place algorithm on an array, proved to produce exactly `SortDesc`.
 */
module Sorting {

  /** Keys never increase from left to right. */
  predicate SortedDesc<T>(s: seq<T>, key: T -> real) {
    forall i, j :: 0 <= i < j < |s| ==> key(s[i]) >= key(s[j])
  }

  /** Inserts `x` after every element of `s` whose key is at least `key(x)`. */
  function Insert<T>(s: seq<T>, x: T, key: T -> real): (r: seq<T>)
    ensures |r| == |s| + 1
    decreases |s|
  {
    if |s| == 0 then [x]
    else if key(s[|s| - 1]) < key(x) then Insert(s[..|s| - 1], x, key) + [s[|s| - 1]]
    else s + [x]
  }

  /** Stable descending sort: each element is inserted, left to right, into the sorted prefix. */
  function SortDesc<T>(s: seq<T>, key: T -> real): (r: seq<T>)
    ensures |r| == |s|
    decreases |s|
  {
    if |s| == 0 then [] else Insert(SortDesc(s[..|s| - 1], key), s[|s| - 1], key)
  }

  lemma {:induction false} InsertPermutes<T>(s: seq<T>, x: T, key: T -> real)
    ensures |Insert(s, x, key)| == |s| + 1
    ensures multiset(Insert(s, x, key)) == multiset(s) + multiset{x}
    decreases |s|
  {
    if |s| > 0 && key(s[|s| - 1]) < key(x) {
      var init := s[..|s| - 1];
      InsertPermutes(init, x, key);
      assert s == init + [s[|s| - 1]];
    }
  }

  lemma {:induction false} InsertSorted<T>(s: seq<T>, x: T, key: T -> real)
    requires SortedDesc(s, key)
    ensures SortedDesc(Insert(s, x, key), key)
    decreases |s|
  {
    if |s| > 0 && key(s[|s| - 1]) < key(x) {
      var init, last := s[..|s| - 1], s[|s| - 1];
      InsertSorted(init, x, key);
      InsertPermutes(init, x, key);
      var r := Insert(init, x, key);
      forall k | 0 <= k < |r| ensures key(r[k]) >= key(last) {
        assert r[k] in multiset(r);
        assert r[k] in multiset(init) || r[k] == x;
        if r[k] != x {
          var m :| 0 <= m < |init| && init[m] == r[k];
          assert s[m] == r[k];
        }
      }
    }
  }

  /** The sort is a permutation that orders the keys descendingly. */
  lemma {:induction false} SortDescCorrect<T>(s: seq<T>, key: T -> real)
    ensures |SortDesc(s, key)| == |s|
    ensures multiset(SortDesc(s, key)) == multiset(s)
    ensures SortedDesc(SortDesc(s, key), key)
    decreases |s|
  {
    if |s| > 0 {
      var init := s[..|s| - 1];
      SortDescCorrect(init, key);
      InsertPermutes(SortDesc(init, key), s[|s| - 1], key);
      InsertSorted(SortDesc(init, key), s[|s| - 1], key);
      assert s == init + [s[|s| - 1]];
    }
  }

  /** A sorted sequence is left unchanged by the sort (so sorting twice is sorting once). */
  lemma {:induction false} SortDescOfSorted<T>(s: seq<T>, key: T -> real)
    requires SortedDesc(s, key)
    ensures SortDesc(s, key) == s
    decreases |s|
  {
    if |s| > 0 {
      var init := s[..|s| - 1];
      SortDescOfSorted(init, key);
      assert s == init + [s[|s| - 1]];
    }
  }

  /**
   * Taking the first `k` of the sorted sequence keeps the best: every element left out (counted
   * with multiplicity) has a key no greater than that of any element kept.
   */
  lemma {:induction false} TopDominates<T>(s: seq<T>, key: T -> real, k: nat)
    requires k <= |s|
    ensures var r := SortDesc(s, key);
      forall x, y :: x in multiset(s) - multiset(r[..k]) && y in r[..k] ==> key(y) >= key(x)
  {
    var r := SortDesc(s, key);
    SortDescCorrect(s, key);
    assert r == r[..k] + r[k..];
    assert multiset(r) == multiset(r[..k]) + multiset(r[k..]);
    forall x, y | x in multiset(s) - multiset(r[..k]) && y in r[..k] ensures key(y) >= key(x) {
      assert x in multiset(r[k..]);
      var m :| k <= m < |r| && r[m] == x by {
        assert x in r[k..];
        var m' :| 0 <= m' < |r[k..]| && r[k..][m'] == x;
        assert r[k + m'] == x;
      }
      var n :| 0 <= n < k && r[n] == y;
    }
  }

  lemma InsertShift<T>(s: seq<T>, j: nat, x: T, key: T -> real)
    requires 0 < j <= |s| && key(s[j - 1]) < key(x)
    ensures Insert(s[..j], x, key) == Insert(s[..j - 1], x, key) + [s[j - 1]]
  {
    assert s[..j][..j - 1] == s[..j - 1];
  }

  lemma InsertStop<T>(s: seq<T>, j: nat, x: T, key: T -> real)
    requires j <= |s| && (j == 0 || key(s[j - 1]) >= key(x))
    ensures Insert(s[..j], x, key) == s[..j] + [x]
  {
  }

  lemma Assemble<T>(r: seq<T>, done: seq<T>, x: T, j: nat, i: nat)
    requires j <= i == |done| < |r| && r[j] == x
    requires forall k :: 0 <= k < j ==> r[k] == done[k]
    requires forall k :: j < k <= i ==> r[k] == done[k - 1]
    ensures r[..i + 1] == done[..j] + [x] + done[j..i]
  {
  }

  /** Moves `a[i]` left into the sorted prefix `a[..i]`, as one step of insertion sort. */
  method InsertInPlace<T>(a: array<T>, i: nat, key: T -> real)
    requires i < a.Length
    modifies a
    ensures a[..i + 1] == Insert(old(a[..i]), old(a[i]), key)
    ensures a[i + 1..] == old(a[i + 1..])
  {
    ghost var done := a[..i];
    ghost var rest := a[i + 1..];
    var x := a[i];
    var j := i;
    assert done[..j] == done && done[j..i] == [];
    while j > 0 && key(a[j - 1]) < key(x)
      invariant 0 <= j <= i
      invariant forall k :: 0 <= k < j ==> a[k] == done[k]
      invariant forall k :: j < k <= i ==> a[k] == done[k - 1]
      invariant a[i + 1..] == rest
      invariant Insert(done, x, key) == Insert(done[..j], x, key) + done[j..i]
    {
      InsertShift(done, j, x, key);
      a[j] := a[j - 1];
      j := j - 1;
    }
    InsertStop(done, j, x, key);
    a[j] := x;
    Assemble(a[..], done, x, j, i);
  }

  /** Sorts `a` in place by descending key, shifting each element left past smaller keys. */
  method SortDescInPlace<T>(a: array<T>, key: T -> real)
    modifies a
    ensures a[..] == SortDesc(old(a[..]), key)
  {
    ghost var orig := a[..];
    for i := 0 to a.Length
      invariant a[..i] == SortDesc(orig[..i], key)
      invariant a[i..] == orig[i..]
    {
      InsertInPlace(a, i, key);
      assert orig[..i + 1][..i] == orig[..i];
    }
    assert orig[..a.Length] == orig;
  }
}
