/** Python's `sorted(xs, key=k, reverse=True)`: a stable sort that puts
    larger keys first and keeps elements with equal keys in their input
    order. `Top` adds the `[:n]` slice the report takes after sorting. */
module StableSort {

  import opened Basics
  import opened Text

  /** Keys never increase along `s`. */
  predicate SortedDesc<T>(s: seq<T>, key: T -> int)
  {
    forall i, j :: 0 <= i < j < |s| ==> key(s[i]) >= key(s[j])
  }

  /** The elements of `s` whose key is `k`, in their order in `s`. */
  function WithKey<T>(s: seq<T>, key: T -> int, k: int): seq<T>
  {
    if s == [] then []
    else (if key(s[0]) == k then [s[0]] else []) + WithKey(s[1..], key, k)
  }

  /** Places `x` after every element of `s` with a larger key and before
      the first one whose key is not larger. */
  function Insert<T>(x: T, s: seq<T>, key: T -> int): (r: seq<T>)
    ensures multiset(r) == multiset(s) + multiset{x}
    ensures |r| == |s| + 1
    ensures r[0] == x || (s != [] && r[0] == s[0])
  {
    if s == [] || key(s[0]) <= key(x) then [x] + s
    else
      assert s == [s[0]] + s[1..];
      [s[0]] + Insert(x, s[1..], key)
  }

  lemma {:induction false} InsertSorted<T>(x: T, s: seq<T>, key: T -> int)
    requires SortedDesc(s, key)
    ensures SortedDesc(Insert(x, s, key), key)
  {
    if s != [] && key(s[0]) > key(x) {
      var rest := Insert(x, s[1..], key);
      InsertSorted(x, s[1..], key);
      var r := [s[0]] + rest;
      assert key(s[0]) >= key(rest[0]);
      forall i, j | 0 <= i < j < |r|
        ensures key(r[i]) >= key(r[j])
      {
        if i == 0 && j > 1 {
          assert key(rest[0]) >= key(rest[j - 1]);
        }
      }
    }
  }

  /** The stable descending sort: insertion sort from the back, so that an
      earlier element lands before any later one with the same key. */
  function Sort<T>(s: seq<T>, key: T -> int): (r: seq<T>)
    ensures multiset(r) == multiset(s) && |r| == |s|
    ensures SortedDesc(r, key)
  {
    if s == [] then []
    else
      assert s == [s[0]] + s[1..];
      InsertSorted(s[0], Sort(s[1..], key), key);
      Insert(s[0], Sort(s[1..], key), key)
  }

  lemma {:induction false} WithKeyAppend<T>(a: seq<T>, b: seq<T>, key: T -> int, k: int)
    ensures WithKey(a + b, key, k) == WithKey(a, key, k) + WithKey(b, key, k)
  {
    if a == [] {
      assert a + b == b;
    } else {
      var ab := a + b;
      assert ab[0] == a[0] && ab[1..] == a[1..] + b;
      var head := if key(a[0]) == k then [a[0]] else [];
      WithKeyAppend(a[1..], b, key, k);
      assert WithKey(ab, key, k) == head + (WithKey(a[1..], key, k) + WithKey(b, key, k));
      assert WithKey(a, key, k) == head + WithKey(a[1..], key, k);
    }
  }

  lemma {:induction false} InsertWithKey<T>(x: T, s: seq<T>, key: T -> int, k: int)
    ensures WithKey(Insert(x, s, key), key, k)
         == (if key(x) == k then [x] else []) + WithKey(s, key, k)
  {
    var r := Insert(x, s, key);
    if s == [] || key(s[0]) <= key(x) {
      assert r[0] == x && r[1..] == s;
    } else {
      var rest := Insert(x, s[1..], key);
      assert r[0] == s[0] && r[1..] == rest;
      InsertWithKey(x, s[1..], key, k);
      var head := if key(s[0]) == k then [s[0]] else [];
      assert WithKey(r, key, k) == head + WithKey(rest, key, k);
      assert WithKey(s, key, k) == head + WithKey(s[1..], key, k);
      if key(x) == k {
        assert head == [];
      }
    }
  }

  /** Stability: for every key value, the elements carrying it appear in the
      sorted sequence exactly as, and in the same order as, in the input. */
  lemma {:induction false} SortStable<T>(s: seq<T>, key: T -> int, k: int)
    ensures WithKey(Sort(s, key), key, k) == WithKey(s, key, k)
  {
    if s != [] {
      SortStable(s[1..], key, k);
      InsertWithKey(s[0], Sort(s[1..], key), key, k);
    }
  }

  /** `sorted(s, key=key, reverse=True)[:n]`. */
  function Top<T>(s: seq<T>, key: T -> int, n: nat): (r: seq<T>)
    ensures |r| == Min(n, |s|)
  {
    Sort(s, key)[..Min(n, |s|)]
  }

  /** No element left out of the first `m` of the sorted sequence has a
      larger key than one kept. */
  lemma TopLargest<T>(s: seq<T>, key: T -> int, n: nat)
    ensures var r := Top(s, key, n);
      forall x, y :: x in r && y in multiset(s) - multiset(r) ==> key(x) >= key(y)
  {
    var sorted := Sort(s, key);
    var m := Min(n, |s|);
    var r, rest := sorted[..m], sorted[m..];
    assert multiset(s) - multiset(r) == multiset(rest) by {
      assert sorted == r + rest;
    }
    forall x, y | x in r && y in multiset(rest)
      ensures key(x) >= key(y)
    {
      var i :| 0 <= i < |r| && r[i] == x;
      assert y in rest;
      var j :| 0 <= j < |rest| && rest[j] == y;
      assert sorted[i] == x && sorted[m + j] == y;
    }
  }

  /** For every key value, the kept elements carrying it are the earliest
      input elements carrying it, in input order. */
  lemma TopStable<T>(s: seq<T>, key: T -> int, n: nat, k: int)
    ensures WithKey(Top(s, key, n), key, k) <= WithKey(s, key, k)
  {
    var sorted := Sort(s, key);
    var m := Min(n, |s|);
    assert sorted == sorted[..m] + sorted[m..];
    WithKeyAppend(sorted[..m], sorted[m..], key, k);
    SortStable(s, key, k);
  }

  /** What the report relies on when it keeps the first `n` after sorting:
      at most `n` elements, taken from the input, keys non-increasing, no
      element left out has a larger key than one kept, and for every key
      value the kept elements are the earliest input elements with that key. */
  lemma TopLaws<T>(s: seq<T>, key: T -> int, n: nat)
    ensures var r := Top(s, key, n);
      |r| <= n &&
      multiset(r) <= multiset(s) &&
      SortedDesc(r, key) &&
      (forall x, y :: x in r && y in multiset(s) - multiset(r) ==> key(x) >= key(y)) &&
      (forall k :: WithKey(r, key, k) <= WithKey(s, key, k))
  {
    var r := Top(s, key, n);
    assert multiset(r) <= multiset(s) && SortedDesc(r, key) by {
      var sorted := Sort(s, key);
      var m := Min(n, |s|);
      assert sorted == sorted[..m] + sorted[m..];
      assert multiset(sorted) == multiset(sorted[..m]) + multiset(sorted[m..]);
    }
    TopLargest(s, key, n);
    forall k
      ensures WithKey(Top(s, key, n), key, k) <= WithKey(s, key, k)
    {
      TopStable(s, key, n, k);
    }
  }
}
