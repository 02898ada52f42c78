/**
 * The list operations the Redux slices perform on their collections, each over a list `s` and a
 * `key` function that reads an element's id: `findIndex`, `find`, replacing the first element with a
 * payload's id, the fetch-by-id upsert, and `filter(x => x.id !== k)`.
 */
module SliceLists {
  import opened Wrappers

  /** `i` is the smallest position whose key is `k`. */
  predicate IsFirst<T, K(==)>(s: seq<T>, key: T -> K, k: K, i: int) {
    0 <= i < |s| && key(s[i]) == k && forall j :: 0 <= j < i ==> key(s[j]) != k
  }

  predicate UniqueKeys<T, K(==)>(s: seq<T>, key: T -> K) {
    forall i, j :: 0 <= i < j < |s| ==> key(s[i]) != key(s[j])
  }

  /** `s.findIndex(x => key(x) === k)`, with `-1` as `None`. */
  function FirstIndex<T, K(==)>(s: seq<T>, key: T -> K, k: K): (r: Option<nat>)
    ensures r.Some? ==> IsFirst(s, key, k, r.value)
    ensures r.None? <==> forall i :: 0 <= i < |s| ==> key(s[i]) != k
    decreases |s|
  {
    if |s| == 0 then None
    else if key(s[0]) == k then Some(0)
    else match FirstIndex(s[1..], key, k)
      case None => None
      case Some(j) => Some(j + 1)
  }

  /** The first position holding key `k` is the one `findIndex` reports. */
  lemma FirstIndexIsFirst<T, K>(s: seq<T>, key: T -> K, k: K, i: int)
    requires IsFirst(s, key, k, i)
    ensures FirstIndex(s, key, k) == Some(i)
  {
    var r := FirstIndex(s, key, k);
    assert r.Some?;
    assert !(r.value < i) && !(i < r.value);
  }

  /** `s.find(x => key(x) === k)`, with `undefined` as `None`. */
  function Find<T, K(==)>(s: seq<T>, key: T -> K, k: K): (r: Option<T>)
    ensures r.None? <==> forall i :: 0 <= i < |s| ==> key(s[i]) != k
    ensures r.Some? ==> exists i :: IsFirst(s, key, k, i) && s[i] == r.value
  {
    match FirstIndex(s, key, k)
      case None => None
      case Some(i) => Some(s[i])
  }

  /** The update reducers: the first element with `x`'s key becomes `x`; without one, nothing changes. */
  function ReplaceFirst<T, K(==)>(s: seq<T>, key: T -> K, x: T): (r: seq<T>)
    ensures |r| == |s|
    ensures forall i :: 0 <= i < |s| ==> r[i] == if IsFirst(s, key, key(x), i) then x else s[i]
  {
    match FirstIndex(s, key, key(x))
      case None => s
      case Some(i) => s[i := x]
  }

  /** Once an element with `x`'s key exists, finding that key after the replacement yields `x`. */
  lemma FindAfterReplace<T, K>(s: seq<T>, key: T -> K, x: T, k: nat)
    requires k < |s| && key(s[k]) == key(x)
    ensures Find(ReplaceFirst(s, key, x), key, key(x)) == Some(x)
  {
    var i := FirstIndex(s, key, key(x)).value;
    var r := ReplaceFirst(s, key, x);
    assert r == s[i := x];
    assert IsFirst(r, key, key(x), i);
    FirstIndexIsFirst(r, key, key(x), i);
  }

  /** The fetch-by-id reducer: replace the first element with `x`'s key, otherwise append `x`. */
  function Upsert<T, K(==)>(s: seq<T>, key: T -> K, x: T): (r: seq<T>)
    ensures (forall i :: 0 <= i < |s| ==> key(s[i]) != key(x)) ==> r == s + [x]
    ensures (exists i :: 0 <= i < |s| && key(s[i]) == key(x)) ==> r == ReplaceFirst(s, key, x)
  {
    match FirstIndex(s, key, key(x))
      case None => s + [x]
      case Some(_) => ReplaceFirst(s, key, x)
  }

  /**
   * The upsert grows the list by at most one, keeps every element of another key in place, keeps
   * keys unique, and finding `x`'s key afterwards yields `x`.
   */
  lemma UpsertShape<T, K>(s: seq<T>, key: T -> K, x: T)
    ensures |s| <= |Upsert(s, key, x)| <= |s| + 1
    ensures forall i :: 0 <= i < |s| && key(s[i]) != key(x) ==> Upsert(s, key, x)[i] == s[i]
    ensures UniqueKeys(s, key) ==> UniqueKeys(Upsert(s, key, x), key)
    ensures Find(Upsert(s, key, x), key, key(x)) == Some(x)
  {
    var r := Upsert(s, key, x);
    if k :| 0 <= k < |s| && key(s[k]) == key(x) {
      FindAfterReplace(s, key, x, k);
      if UniqueKeys(s, key) {
        forall i, j | 0 <= i < j < |r|
          ensures key(r[i]) != key(r[j])
        {
          if IsFirst(s, key, key(x), i) {
            assert key(s[j]) != key(s[i]);
          } else if IsFirst(s, key, key(x), j) {
            assert key(s[i]) != key(s[j]);
          }
        }
      }
    } else {
      assert IsFirst(r, key, key(x), |s|);
      FirstIndexIsFirst(r, key, key(x), |s|);
    }
  }

  /** `s.filter(x => key(x) !== k)`. */
  function RemoveKey<T, K(==)>(s: seq<T>, key: T -> K, k: K): (r: seq<T>)
    ensures |r| <= |s|
    ensures forall i :: 0 <= i < |r| ==> key(r[i]) != k
    decreases |s|
  {
    if |s| == 0 then []
    else RemoveKey(s[..|s| - 1], key, k) + (if key(s[|s| - 1]) != k then [s[|s| - 1]] else [])
  }

  /** Exactly the elements of another key are kept: nothing is invented and nothing else is lost. */
  lemma {:induction false} RemoveKeyMembers<T, K>(s: seq<T>, key: T -> K, k: K)
    ensures forall i :: 0 <= i < |RemoveKey(s, key, k)| ==> RemoveKey(s, key, k)[i] in s
    ensures forall i :: 0 <= i < |s| && key(s[i]) != k ==> s[i] in RemoveKey(s, key, k)
    decreases |s|
  {
    if |s| > 0 {
      var init := s[..|s| - 1];
      RemoveKeyMembers(init, key, k);
      assert s == init + [s[|s| - 1]];
      assert forall i :: 0 <= i < |init| ==> init[i] == s[i];
    }
  }

  /** Filtering distributes over concatenation, so the kept elements stay in their order. */
  lemma {:induction false} RemoveKeyConcat<T, K>(a: seq<T>, b: seq<T>, key: T -> K, k: K)
    ensures RemoveKey(a + b, key, k) == RemoveKey(a, key, k) + RemoveKey(b, key, k)
    decreases |b|
  {
    if |b| == 0 {
      assert a + b == a;
    } else {
      assert (a + b)[..|a + b| - 1] == a + b[..|b| - 1];
      RemoveKeyConcat(a, b[..|b| - 1], key, k);
    }
  }

  /** Filtering out a key no element has changes nothing. */
  lemma {:induction false} RemoveAbsentKey<T, K>(s: seq<T>, key: T -> K, k: K)
    requires forall i :: 0 <= i < |s| ==> key(s[i]) != k
    ensures RemoveKey(s, key, k) == s
    decreases |s|
  {
    if |s| > 0 {
      RemoveAbsentKey(s[..|s| - 1], key, k);
      assert s == s[..|s| - 1] + [s[|s| - 1]];
    }
  }

  /** Filtering out a key every element has empties the list. */
  lemma {:induction false} RemoveEveryKey<T, K>(s: seq<T>, key: T -> K, k: K)
    requires forall i :: 0 <= i < |s| ==> key(s[i]) == k
    ensures RemoveKey(s, key, k) == []
    decreases |s|
  {
    if |s| > 0 {
      RemoveEveryKey(s[..|s| - 1], key, k);
    }
  }
}
