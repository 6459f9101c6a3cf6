/**
 * The result of JavaScript's `Array.prototype.sort` with a comparator that
 * subtracts two numeric keys. The sort is stable (ECMAScript 2019 onward), so
 * its result is fully determined: it is sorted by key, and among elements
 * with equal keys it keeps their original order. Keys are extended reals so
 * that `Number.POSITIVE_INFINITY` can stand for a missing value; the
 * comparator `Infinity - Infinity` is `NaN`, which the sort treats as "equal".
 */
module Sorting {
  import Common

  /** A sort key: a finite number or positive infinity. */
  datatype Key = Finite(r: real) | PosInf

  /** The order the comparator `(a, b) => ka - kb` induces on keys. */
  predicate KeyLe(a: Key, b: Key) {
    b.PosInf? || (a.Finite? && a.r <= b.r)
  }

  /** `s` is in non-decreasing key order. */
  ghost predicate Sorted<T>(s: seq<T>, key: T -> Key) {
    forall i, j :: 0 <= i < j < |s| ==> KeyLe(key(s[i]), key(s[j]))
  }

  /** The elements of `s` whose key is `k`, in order. */
  function WithKey<T>(s: seq<T>, key: T -> Key, k: Key): seq<T> {
    if s == [] then []
    else (if key(s[0]) == k then [s[0]] else []) + WithKey(s[1..], key, k)
  }

  /** `t` keeps, for every key, the elements of `s` with that key in the same order. */
  ghost predicate SameKeyOrder<T>(s: seq<T>, t: seq<T>, key: T -> Key) {
    forall k :: WithKey(t, key, k) == WithKey(s, key, k)
  }

  /** Places `x` before the first element whose key is not below its own. */
  function Insert<T>(x: T, s: seq<T>, key: T -> Key): (r: seq<T>)
    ensures |r| == |s| + 1
    ensures multiset(r) == multiset(s) + multiset{x}
  {
    if s == [] || KeyLe(key(x), key(s[0])) then [x] + s
    else
      assert s == [s[0]] + s[1..];
      [s[0]] + Insert(x, s[1..], key)
  }

  /** Stable sort by key. */
  function Sort<T>(s: seq<T>, key: T -> Key): (r: seq<T>)
    ensures |r| == |s|
  {
    if s == [] then [] else Insert(s[0], Sort(s[1..], key), key)
  }

  lemma {:induction false} InsertSorted<T>(x: T, s: seq<T>, key: T -> Key)
    requires Sorted(s, key)
    ensures Sorted(Insert(x, s, key), key)
  {
    if s != [] && !KeyLe(key(x), key(s[0])) {
      InsertSorted(x, s[1..], key);
      var r := Insert(x, s, key);
      var t := Insert(x, s[1..], key);
      assert r == [s[0]] + t;
      assert multiset(t) == multiset(s[1..]) + multiset{x};
      forall j | 0 < j < |r|
        ensures KeyLe(key(s[0]), key(r[j]))
      {
        assert r[j] in multiset(t);
        if r[j] != x {
          assert r[j] in multiset(s[1..]);
          var m :| 0 <= m < |s[1..]| && s[1..][m] == r[j];
          assert s[m + 1] == r[j];
        }
      }
    }
  }

  /** The sort result is in non-decreasing key order. */
  lemma {:induction false} SortSorted<T>(s: seq<T>, key: T -> Key)
    ensures Sorted(Sort(s, key), key)
  {
    if s != [] {
      SortSorted(s[1..], key);
      InsertSorted(s[0], Sort(s[1..], key), key);
    }
  }

  /** The sort result holds the same elements, as often as the input. */
  lemma {:induction false} SortPermutation<T>(s: seq<T>, key: T -> Key)
    ensures multiset(Sort(s, key)) == multiset(s)
  {
    if s != [] {
      SortPermutation(s[1..], key);
      assert s == [s[0]] + s[1..];
    }
  }

  lemma {:induction false} WithKeyInsert<T>(x: T, s: seq<T>, key: T -> Key, k: Key)
    ensures WithKey(Insert(x, s, key), key, k)
         == (if key(x) == k then [x] else []) + WithKey(s, key, k)
  {
    if s == [] || KeyLe(key(x), key(s[0])) {
      assert ([x] + s)[1..] == s;
    } else {
      WithKeyInsert(x, s[1..], key, k);
      var r := Insert(x, s, key);
      assert r[1..] == Insert(x, s[1..], key);
      // s[0] has a key strictly below key(x), so it is never grouped with x
      assert key(s[0]) != key(x);
    }
  }

  /** Stability: for every key, the sort keeps the input order of the elements with that key. */
  lemma {:induction false} SortStable<T>(s: seq<T>, key: T -> Key)
    ensures SameKeyOrder(s, Sort(s, key), key)
  {
    if s != [] {
      SortStable(s[1..], key);
      forall k ensures WithKey(Sort(s, key), key, k) == WithKey(s, key, k) {
        WithKeyInsert(s[0], Sort(s[1..], key), key, k);
      }
    }
  }

  lemma {:induction false} WithKeyHas<T>(s: seq<T>, key: T -> Key, x: T)
    ensures x in s <==> x in WithKey(s, key, key(x))
  {
    if s != [] {
      WithKeyHas(s[1..], key, x);
      assert s == [s[0]] + s[1..];
    }
  }

  lemma GroupOfHeadNonEmpty<T>(s: seq<T>, key: T -> Key)
    ensures s != [] ==> WithKey(s, key, key(s[0])) != []
  {
  }

  lemma SortedHeadLeast<T>(s: seq<T>, key: T -> Key, x: T)
    requires Sorted(s, key) && x in s
    ensures KeyLe(key(s[0]), key(x))
  {
    var j :| 0 <= j < |s| && s[j] == x;
    if j > 0 {
      assert KeyLe(key(s[0]), key(s[j]));
    }
  }

  /** Two sorted, stable arrangements start with the same element. */
  lemma SameHead<T>(a: seq<T>, b: seq<T>, key: T -> Key)
    requires Sorted(a, key) && Sorted(b, key) && SameKeyOrder(a, b, key)
    requires a != [] && b != []
    ensures a[0] == b[0]
  {
    WithKeyHas(a, key, b[0]);
    WithKeyHas(b, key, b[0]);
    WithKeyHas(a, key, a[0]);
    WithKeyHas(b, key, a[0]);
    SortedHeadLeast(a, key, b[0]);
    SortedHeadLeast(b, key, a[0]);
    var m := key(a[0]);
    assert key(b[0]) == m;
    assert WithKey(a, key, m) == [a[0]] + WithKey(a[1..], key, m);
    assert WithKey(b, key, m) == [b[0]] + WithKey(b[1..], key, m);
    assert WithKey(a, key, m) == WithKey(b, key, m);
    assert a[0] == WithKey(a, key, m)[0] == b[0];
  }

  /** With the same head, the tails agree on the order of each key's elements. */
  lemma SameKeyOrderTails<T>(a: seq<T>, b: seq<T>, key: T -> Key)
    requires SameKeyOrder(a, b, key) && a != [] && b != [] && a[0] == b[0]
    ensures SameKeyOrder(a[1..], b[1..], key)
  {
    forall k ensures WithKey(b[1..], key, k) == WithKey(a[1..], key, k) {
      var ha := if key(a[0]) == k then [a[0]] else [];
      assert WithKey(a, key, k) == ha + WithKey(a[1..], key, k);
      assert WithKey(b, key, k) == ha + WithKey(b[1..], key, k);
      assert WithKey(a, key, k) == WithKey(b, key, k);
      assert WithKey(a[1..], key, k) == WithKey(a, key, k)[|ha|..];
      assert WithKey(b[1..], key, k) == WithKey(b, key, k)[|ha|..];
    }
  }

  /**
   * Any two sequences that are sorted by key and agree on the order of each
   * key's elements are equal: every stable sort gives the same result as `Sort`.
   */
  lemma {:induction false} StableSortUnique<T>(a: seq<T>, b: seq<T>, key: T -> Key)
    requires Sorted(a, key) && Sorted(b, key) && SameKeyOrder(a, b, key)
    ensures a == b
    decreases |a|
  {
    // a non-empty side has an element in the group of its first key, so both are empty or neither
    GroupOfHeadNonEmpty(a, key);
    GroupOfHeadNonEmpty(b, key);
    if a != [] && b != [] {
      SameHead(a, b, key);
      SameKeyOrderTails(a, b, key);
      StableSortUnique(a[1..], b[1..], key);
      assert a == [a[0]] + a[1..] && b == [b[0]] + b[1..];
    }
  }

  lemma {:induction false} InsertMapPermutation<T, U>(x: T, s: seq<T>, key: T -> Key, f: T -> U)
    ensures multiset(Common.MapSeq(Insert(x, s, key), f)) == multiset(Common.MapSeq(s, f)) + multiset{f(x)}
  {
    if s == [] || KeyLe(key(x), key(s[0])) {
      assert Common.MapSeq([x] + s, f) == [f(x)] + Common.MapSeq(s, f);
    } else {
      InsertMapPermutation(x, s[1..], key, f);
      var r := Insert(x, s, key);
      assert Common.MapSeq(r, f) == [f(s[0])] + Common.MapSeq(Insert(x, s[1..], key), f);
      assert Common.MapSeq(s, f) == [f(s[0])] + Common.MapSeq(s[1..], f);
    }
  }

  /** Any projection of the sorted elements is a permutation of the same projection of the input. */
  lemma {:induction false} SortMapPermutation<T, U>(s: seq<T>, key: T -> Key, f: T -> U)
    ensures multiset(Common.MapSeq(Sort(s, key), f)) == multiset(Common.MapSeq(s, f))
  {
    if s != [] {
      SortMapPermutation(s[1..], key, f);
      InsertMapPermutation(s[0], Sort(s[1..], key), key, f);
      assert Common.MapSeq(s, f) == [f(s[0])] + Common.MapSeq(s[1..], f);
    }
  }
}
