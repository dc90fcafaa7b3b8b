/**
 * What `Array.prototype.sort` produces for a comparator that is the
 * difference of two integer keys. The engine's sort is stable, so its
 * outcome is fixed by the comparator alone: it is the insertion sort built
 * here, which puts each element before the first one whose key is not
 * smaller.
 */
module Sorting {

  predicate SortedBy<T>(xs: seq<T>, key: T -> int) {
    forall i, j :: 0 <= i < j < |xs| ==> key(xs[i]) <= key(xs[j])
  }

  /** Puts `x`, which came before every element of `s`, in front of the first one it does not compare above. */
  function InsertBy<T>(x: T, s: seq<T>, key: T -> int): seq<T> {
    if s == [] then [x]
    else if key(x) - key(s[0]) <= 0 then [x] + s
    else [s[0]] + InsertBy(x, s[1..], key)
  }

  /** The stable sort by `key`: each element, from the back, inserted into the sorted rest. */
  function SortBy<T>(xs: seq<T>, key: T -> int): seq<T> {
    if xs == [] then []
    else InsertBy(xs[0], SortBy(xs[1..], key), key)
  }

  lemma {:induction false} InsertByPermutes<T>(x: T, s: seq<T>, key: T -> int)
    ensures multiset(InsertBy(x, s, key)) == multiset(s) + multiset{x}
  {
    if s != [] && key(x) - key(s[0]) > 0 {
      InsertByPermutes(x, s[1..], key);
      assert s == [s[0]] + s[1..];
    }
  }

  /** The sort's result is a permutation of its input. */
  lemma {:induction false} SortByPermutes<T>(xs: seq<T>, key: T -> int)
    ensures multiset(SortBy(xs, key)) == multiset(xs)
  {
    if xs != [] {
      SortByPermutes(xs[1..], key);
      InsertByPermutes(xs[0], SortBy(xs[1..], key), key);
      assert xs == [xs[0]] + xs[1..];
    }
  }

  lemma {:induction false} InsertBySorted<T>(x: T, s: seq<T>, key: T -> int)
    requires SortedBy(s, key)
    ensures SortedBy(InsertBy(x, s, key), key)
  {
    if s != [] && key(x) > key(s[0]) {
      var rest := InsertBy(x, s[1..], key);
      InsertBySorted(x, s[1..], key);
      InsertByPermutes(x, s[1..], key);
      var r := [s[0]] + rest;
      forall j | 0 < j < |r| ensures key(s[0]) <= key(r[j]) {
        assert r[j] == rest[j - 1];
        assert rest[j - 1] in multiset(s[1..]) + multiset{x};
        if rest[j - 1] != x {
          var k :| 0 <= k < |s[1..]| && s[1..][k] == rest[j - 1];
          assert s[k + 1] == r[j];
        }
      }
    }
  }

  /** The sort's result is ordered by the key. */
  lemma {:induction false} SortBySorted<T>(xs: seq<T>, key: T -> int)
    ensures SortedBy(SortBy(xs, key), key)
  {
    if xs != [] {
      SortBySorted(xs[1..], key);
      InsertBySorted(xs[0], SortBy(xs[1..], key), key);
    }
  }

  /** The elements of `xs` whose key is `k`, in their order. */
  function WithKey<T>(xs: seq<T>, key: T -> int, k: int): seq<T> {
    if xs == [] then []
    else (if key(xs[0]) == k then [xs[0]] else []) + WithKey(xs[1..], key, k)
  }

  lemma WithKeyCons<T>(a: T, xs: seq<T>, key: T -> int, k: int)
    ensures WithKey([a] + xs, key, k) == (if key(a) == k then [a] else []) + WithKey(xs, key, k)
  {
    assert ([a] + xs)[1..] == xs;
  }

  /** Moving the insertion one place on, past an element of smaller key, keeps each key's elements in order. */
  lemma InsertByStableStep<T>(x: T, s: seq<T>, key: T -> int, k: int)
    requires s != [] && key(x) - key(s[0]) > 0
    requires WithKey(InsertBy(x, s[1..], key), key, k) == (if key(x) == k then [x] else []) + WithKey(s[1..], key, k)
    ensures WithKey(InsertBy(x, s, key), key, k) == (if key(x) == k then [x] else []) + WithKey(s, key, k)
  {
    var rest := InsertBy(x, s[1..], key);
    WithKeyCons(s[0], rest, key, k);
    if key(s[0]) == k {
      assert key(x) != k;
    }
  }

  lemma {:induction false} InsertByStable<T>(x: T, s: seq<T>, key: T -> int, k: int)
    ensures WithKey(InsertBy(x, s, key), key, k) == (if key(x) == k then [x] else []) + WithKey(s, key, k)
  {
    if s == [] {
      WithKeyCons(x, [], key, k);
    } else if key(x) - key(s[0]) <= 0 {
      WithKeyCons(x, s, key, k);
    } else {
      InsertByStable(x, s[1..], key, k);
      InsertByStableStep(x, s, key, k);
    }
  }

  /** The sort is stable: the elements sharing any one key keep their relative order. */
  lemma {:induction false} SortByStable<T>(xs: seq<T>, key: T -> int, k: int)
    ensures WithKey(SortBy(xs, key), key, k) == WithKey(xs, key, k)
  {
    if xs != [] {
      SortByStable(xs[1..], key, k);
      InsertByStable(xs[0], SortBy(xs[1..], key), key, k);
    }
  }

  /** When every key is the same the comparator always answers 0, and the order is left as it was. */
  lemma {:induction false} SortByEqualKeys<T>(xs: seq<T>, key: T -> int, k: int)
    requires forall i :: 0 <= i < |xs| ==> key(xs[i]) == k
    ensures SortBy(xs, key) == xs
  {
    if xs != [] {
      SortByEqualKeys(xs[1..], key, k);
      assert xs == [xs[0]] + xs[1..];
    }
  }
}
