/** Python's `sorted`: the ascending listing of a set of integer keys, and a
    sort of a sequence by an integer key. */
module Sorting {

  predicate Increasing(xs: seq<int>) {
    forall i, j :: 0 <= i < j < |xs| ==> xs[i] < xs[j]
  }

  predicate SortedBy<T>(xs: seq<T>, key: T -> int) {
    forall i, j :: 0 <= i < j < |xs| ==> key(xs[i]) <= key(xs[j])
  }

  lemma {:induction false} MinExists(s: set<int>)
    requires s != {}
    ensures exists m :: m in s && forall x :: x in s ==> m <= x
    decreases |s|
  {
    if forall z :: z !in s {
      assert false;
    }
    var y :| y in s;
    if s == {y} {
    } else {
      MinExists(s - {y});
      var m :| m in s - {y} && forall x :: x in s - {y} ==> m <= x;
      var w := if y < m then y else m;
      forall x | x in s
        ensures w <= x
      {
        if x != y { assert x in s - {y}; }
      }
      assert w in s;
    }
  }

  /** The least element of a non-empty set. */
  function SetMin(s: set<int>): (m: int)
    requires s != {}
    ensures m in s && forall x :: x in s ==> m <= x
  {
    MinExists(s);
    var m :| m in s && forall x :: x in s ==> m <= x;
    m
  }

  /** `sorted(keys)`: every key once, in strictly increasing order. */
  function SortedKeys(s: set<int>): (r: seq<int>)
    ensures |r| == |s|
    ensures forall k :: k in s <==> k in r
    ensures Increasing(r)
    decreases |s|
  {
    if s == {} then []
    else
      var m := SetMin(s);
      var rest := SortedKeys(s - {m});
      PrependMin(m, rest);
      [m] + rest
  }

  lemma PrependMin(m: int, rest: seq<int>)
    requires Increasing(rest) && forall i :: 0 <= i < |rest| ==> m < rest[i]
    ensures Increasing([m] + rest)
  {
    var r := [m] + rest;
    forall i, j | 0 <= i < j < |r|
      ensures r[i] < r[j]
    {
      assert r[j] == rest[j - 1];
      if i > 0 { assert r[i] == rest[i - 1]; }
    }
  }

  /** Inserts `x` before the first element whose key is not smaller, so
      after every element with a smaller key and before every element with
      an equal one. */
  function InsertBy<T>(x: T, xs: seq<T>, key: T -> int): (r: seq<T>)
    requires SortedBy(xs, key)
    ensures SortedBy(r, key)
    ensures multiset(r) == multiset(xs) + multiset{x}
    ensures |r| == |xs| + 1
  {
    if |xs| == 0 then [x]
    else if key(x) <= key(xs[0]) then [x] + xs
    else
      var rest := InsertBy(x, xs[1..], key);
      InsertHead(x, xs, key, rest);
      [xs[0]] + rest
  }

  lemma InsertHead<T>(x: T, xs: seq<T>, key: T -> int, rest: seq<T>)
    requires |xs| > 0 && SortedBy(xs, key) && key(xs[0]) < key(x)
    requires SortedBy(rest, key) && multiset(rest) == multiset(xs[1..]) + multiset{x}
    ensures SortedBy([xs[0]] + rest, key)
    ensures multiset([xs[0]] + rest) == multiset(xs) + multiset{x}
  {
    assert xs == [xs[0]] + xs[1..];
    forall i | 0 <= i < |rest|
      ensures key(xs[0]) <= key(rest[i])
    {
      assert rest[i] in multiset(rest);
      if rest[i] != x {
        assert rest[i] in multiset(xs[1..]);
        var j :| 0 <= j < |xs[1..]| && xs[1..][j] == rest[i];
        assert xs[j + 1] == rest[i];
      }
    }
    var r := [xs[0]] + rest;
    forall i, j | 0 <= i < j < |r|
      ensures key(r[i]) <= key(r[j])
    {
      if i > 0 {
        assert r[i] == rest[i - 1] && r[j] == rest[j - 1];
      } else {
        assert r[j] == rest[j - 1];
      }
    }
  }

  /** An insertion sort, ascending by `key`. Each element is inserted into
      the sorted rest before its equal keys, so elements with equal keys keep
      their input order (SortByStable). */
  function SortBy<T>(xs: seq<T>, key: T -> int): (r: seq<T>)
    ensures SortedBy(r, key)
    ensures multiset(r) == multiset(xs)
    ensures |r| == |xs|
  {
    if |xs| == 0 then []
    else
      assert xs == [xs[0]] + xs[1..];
      InsertBy(xs[0], SortBy(xs[1..], key), key)
  }

  /** The elements whose key is `k`, in their order. */
  function WithKey<T>(xs: seq<T>, key: T -> int, k: int): (r: seq<T>)
    ensures |r| <= |xs|
  {
    if |xs| == 0 then [] else (if key(xs[0]) == k then [xs[0]] else []) + WithKey(xs[1..], key, k)
  }

  /** Inserting `x` puts it in front of the elements with its key and leaves
      every other key's elements as they were. */
  lemma {:induction false} InsertByRuns<T>(x: T, xs: seq<T>, key: T -> int, k: int)
    requires SortedBy(xs, key)
    ensures WithKey(InsertBy(x, xs, key), key, k) == (if key(x) == k then [x] else []) + WithKey(xs, key, k)
    decreases |xs|
  {
    if |xs| == 0 {
      WithKeyCons(x, [], key, k);
    } else if key(x) <= key(xs[0]) {
      WithKeyCons(x, xs, key, k);
    } else {
      InsertBehind(x, xs, key);
      InsertByRuns(x, xs[1..], key, k);
      RunsBehind(x, xs[0], xs[1..], InsertBy(x, xs[1..], key), key, k);
      assert [xs[0]] + xs[1..] == xs;
    }
  }

  /** An element with a smaller key than `x` in front of both sides changes
      nothing about `x`'s place among its key. */
  lemma RunsBehind<T>(x: T, y: T, tail: seq<T>, ins: seq<T>, key: T -> int, k: int)
    requires key(y) < key(x)
    requires WithKey(ins, key, k) == (if key(x) == k then [x] else []) + WithKey(tail, key, k)
    ensures WithKey([y] + ins, key, k) == (if key(x) == k then [x] else []) + WithKey([y] + tail, key, k)
  {
    WithKeyCons(y, ins, key, k);
    WithKeyCons(y, tail, key, k);
  }

  lemma WithKeyCons<T>(y: T, ys: seq<T>, key: T -> int, k: int)
    ensures WithKey([y] + ys, key, k) == (if key(y) == k then [y] else []) + WithKey(ys, key, k)
  {
    assert ([y] + ys)[1..] == ys;
  }

  /** An element with a larger key than the head goes behind it. */
  lemma InsertBehind<T>(x: T, xs: seq<T>, key: T -> int)
    requires |xs| > 0 && SortedBy(xs, key) && key(xs[0]) < key(x)
    ensures SortedBy(xs[1..], key)
    ensures InsertBy(x, xs, key) == [xs[0]] + InsertBy(x, xs[1..], key)
  {
    var tail := xs[1..];
    forall i, j | 0 <= i < j < |tail|
      ensures key(tail[i]) <= key(tail[j])
    {
      assert tail[i] == xs[i + 1] && tail[j] == xs[j + 1];
    }
  }

  /** The sort is stable: the elements of each key keep their input order. */
  lemma {:induction false} SortByStable<T>(xs: seq<T>, key: T -> int, k: int)
    ensures WithKey(SortBy(xs, key), key, k) == WithKey(xs, key, k)
    decreases |xs|
  {
    if |xs| > 0 {
      SortByStable(xs[1..], key, k);
      InsertByRuns(xs[0], SortBy(xs[1..], key), key, k);
    }
  }

  lemma SortByStableAll<T>(xs: seq<T>, key: T -> int)
    ensures forall k :: WithKey(SortBy(xs, key), key, k) == WithKey(xs, key, k)
  {
    forall k
      ensures WithKey(SortBy(xs, key), key, k) == WithKey(xs, key, k)
    {
      SortByStable(xs, key, k);
    }
  }
}
