/** Python's `sorted` as the gateway uses it: on model names with the default string
    order, and stably by an integer key (estimated size, price rank). Both are insertion
    sorts here; what the rest of the model relies on is stated as lemmas: sortedness,
    permutation, stability and which element comes first. */
module Sorting {

  // ---------------------------------------------------------------------------
  // Python's order on `str`: code points, lexicographically, a prefix first

  predicate LexLe(a: string, b: string)
    decreases |a|
  {
    |a| == 0 || (|b| > 0 && (a[0] < b[0] || (a[0] == b[0] && LexLe(a[1..], b[1..]))))
  }

  lemma {:induction false} LexLeReflexive(a: string)
    ensures LexLe(a, a)
    decreases |a|
  {
    if |a| > 0 { LexLeReflexive(a[1..]); }
  }

  lemma {:induction false} LexLeTotal(a: string, b: string)
    ensures LexLe(a, b) || LexLe(b, a)
    decreases |a|
  {
    if |a| > 0 && |b| > 0 && a[0] == b[0] { LexLeTotal(a[1..], b[1..]); }
  }

  lemma {:induction false} LexLeAntisymmetric(a: string, b: string)
    requires LexLe(a, b) && LexLe(b, a)
    ensures a == b
    decreases |a|
  {
    if |a| > 0 {
      LexLeAntisymmetric(a[1..], b[1..]);
      assert a == [a[0]] + a[1..] && b == [b[0]] + b[1..];
    }
  }

  lemma {:induction false} LexLeTransitive(a: string, b: string, c: string)
    requires LexLe(a, b) && LexLe(b, c)
    ensures LexLe(a, c)
    decreases |a|
  {
    if |a| > 0 && a[0] == b[0] && b[0] == c[0] { LexLeTransitive(a[1..], b[1..], c[1..]); }
  }

  predicate SortedStrings(s: seq<string>) {
    forall i, j :: 0 <= i < j < |s| ==> LexLe(s[i], s[j])
  }

  // ---------------------------------------------------------------------------
  // sorted(names)

  function InsertString(x: string, t: seq<string>): (r: seq<string>)
    ensures multiset(r) == multiset(t) + multiset{x}
    ensures |r| == |t| + 1
  {
    if t == [] || LexLe(x, t[0]) then [x] + t
    else
      assert t == [t[0]] + t[1..];
      [t[0]] + InsertString(x, t[1..])
  }

  lemma {:induction false} InsertStringSorted(x: string, t: seq<string>)
    requires SortedStrings(t)
    ensures SortedStrings(InsertString(x, t))
  {
    if t == [] {
    } else if LexLe(x, t[0]) {
      forall j | 0 <= j < |t| ensures LexLe(x, t[j]) {
        if j > 0 { LexLeTransitive(x, t[0], t[j]); }
      }
    } else {
      var rest := InsertString(x, t[1..]);
      InsertStringSorted(x, t[1..]);
      LexLeTotal(x, t[0]);
      forall j | 0 <= j < |rest| ensures LexLe(t[0], rest[j]) {
        assert rest[j] in multiset(rest);
        if rest[j] != x {
          assert rest[j] in multiset(t[1..]);
          var k :| 0 <= k < |t[1..]| && t[1..][k] == rest[j];
          assert t[k + 1] == rest[j];
        }
      }
      assert InsertString(x, t) == [t[0]] + rest;
    }
  }

  /** `sorted(s)` on a list of strings. */
  function SortStrings(s: seq<string>): (r: seq<string>)
    ensures multiset(r) == multiset(s)
    ensures |r| == |s|
    ensures SortedStrings(r)
  {
    if s == [] then []
    else
      assert s == [s[0]] + s[1..];
      var rest := SortStrings(s[1..]);
      InsertStringSorted(s[0], rest);
      InsertString(s[0], rest)
  }

  /** Sorting a sorted list gives the same list back, so re-sorting a cached sorted
      list is the identity. */
  lemma {:induction false} SortSortedIsIdentity(s: seq<string>)
    requires SortedStrings(s)
    ensures SortStrings(s) == s
  {
    if s != [] {
      SortSortedIsIdentity(s[1..]);
      if |s| > 1 {
        assert LexLe(s[0], s[1]);
      }
      assert s == [s[0]] + s[1..];
    }
  }

  /** `sorted(sorted(s)) == sorted(s)`. */
  lemma {:induction false} SortStringsIdempotent(s: seq<string>)
    ensures SortStrings(SortStrings(s)) == SortStrings(s)
  {
    SortSortedIsIdentity(SortStrings(s));
  }

  // ---------------------------------------------------------------------------
  // sorted(s, key=key): stable sort by an integer key

  predicate SortedByKey<T>(s: seq<T>, key: T -> int) {
    forall i, j :: 0 <= i < j < |s| ==> key(s[i]) <= key(s[j])
  }

  /** The elements of `s` whose key is `k`, in the order of `s`. */
  function FilterKey<T>(s: seq<T>, key: T -> int, k: int): seq<T> {
    if s == [] then []
    else (if key(s[0]) == k then [s[0]] else []) + FilterKey(s[1..], key, k)
  }

  /** Inserts `x` before the first element whose key is at least its own, so that `x`
      stays ahead of every later element with an equal key. */
  function InsertByKey<T>(x: T, t: seq<T>, key: T -> int): (r: seq<T>)
    ensures multiset(r) == multiset(t) + multiset{x}
    ensures |r| == |t| + 1
    ensures r[0] == x || (|t| > 0 && r[0] == t[0])
  {
    if t == [] || key(x) <= key(t[0]) then [x] + t
    else
      assert t == [t[0]] + t[1..];
      [t[0]] + InsertByKey(x, t[1..], key)
  }

  lemma {:induction false} InsertByKeySorted<T>(x: T, t: seq<T>, key: T -> int)
    requires SortedByKey(t, key)
    ensures SortedByKey(InsertByKey(x, t, key), key)
  {
    if t != [] && key(t[0]) < key(x) {
      var rest := InsertByKey(x, t[1..], key);
      InsertByKeySorted(x, t[1..], key);
      assert key(t[0]) <= key(rest[0]);
      assert InsertByKey(x, t, key) == [t[0]] + rest;
    }
  }

  /** `sorted(s, key=key)`. */
  function SortByKey<T>(s: seq<T>, key: T -> int): (r: seq<T>)
    ensures multiset(r) == multiset(s)
    ensures |r| == |s|
    ensures SortedByKey(r, key)
  {
    if s == [] then []
    else
      assert s == [s[0]] + s[1..];
      var rest := SortByKey(s[1..], key);
      InsertByKeySorted(s[0], rest, key);
      InsertByKey(s[0], rest, key)
  }

  /** Sorting a list already sorted by the key gives it back unchanged. */
  lemma {:induction false} SortByKeySortedIsIdentity<T>(s: seq<T>, key: T -> int)
    requires SortedByKey(s, key)
    ensures SortByKey(s, key) == s
  {
    if s != [] {
      SortByKeySortedIsIdentity(s[1..], key);
      assert s == [s[0]] + s[1..];
    }
  }

  /** A list whose every element is keyed by its own position is sorted by that key. */
  lemma {:induction false} PositionKeyedIsSorted<T>(s: seq<T>, key: T -> int)
    requires forall i :: 0 <= i < |s| ==> key(s[i]) == i
    ensures SortedByKey(s, key)
  {
  }

  /** Two elements out of key order are swapped. */
  lemma {:induction false} SortTwo<T>(a: T, b: T, key: T -> int)
    requires key(b) < key(a)
    ensures SortByKey([a, b], key) == [b, a]
  {
    assert [a, b][1..] == [b];
  }

  lemma {:induction false} InsertByKeyFilter<T>(x: T, t: seq<T>, key: T -> int, k: int)
    ensures FilterKey(InsertByKey(x, t, key), key, k)
         == (if key(x) == k then [x] else []) + FilterKey(t, key, k)
    decreases |t|
  {
    if t == [] || key(x) <= key(t[0]) {
      FilterKeyCons(x, t, key, k);
    } else {
      var rest := InsertByKey(x, t[1..], key);
      assert InsertByKey(x, t, key) == [t[0]] + rest;
      InsertByKeyFilter(x, t[1..], key, k);
      assert t == [t[0]] + t[1..];
      FilterPastSmallerHead(t[0], rest, t[1..], x, key, k);
    }
  }

  /** Putting `y`, with a smaller key than `x`, in front of two lists whose filters
      differ only by `x` at the front keeps that difference. */
  lemma {:induction false} FilterPastSmallerHead<T>(y: T, rest: seq<T>, u: seq<T>, x: T, key: T -> int, k: int)
    requires key(y) < key(x)
    requires FilterKey(rest, key, k) == (if key(x) == k then [x] else []) + FilterKey(u, key, k)
    ensures FilterKey([y] + rest, key, k) == (if key(x) == k then [x] else []) + FilterKey([y] + u, key, k)
  {
    FilterKeyCons(y, rest, key, k);
    FilterKeyCons(y, u, key, k);
    if key(y) == k {
      assert key(x) != k;
    }
  }

  lemma {:induction false} FilterKeyCons<T>(y: T, u: seq<T>, key: T -> int, k: int)
    ensures FilterKey([y] + u, key, k) == (if key(y) == k then [y] else []) + FilterKey(u, key, k)
  {
    assert ([y] + u)[1..] == u;
  }

  /** Stability: for every key value, the elements with that key keep their relative
      order. Together with sortedness this determines the result completely. */
  lemma {:induction false} SortByKeyStable<T>(s: seq<T>, key: T -> int, k: int)
    ensures FilterKey(SortByKey(s, key), key, k) == FilterKey(s, key, k)
  {
    if s != [] {
      SortByKeyStable(s[1..], key, k);
      InsertByKeyFilter(s[0], SortByKey(s[1..], key), key, k);
    }
  }

  lemma {:induction false} FilterKeyHead<T>(s: seq<T>, key: T -> int, i: nat)
    requires i < |s|
    requires forall j :: 0 <= j < i ==> key(s[j]) != key(s[i])
    ensures |FilterKey(s, key, key(s[i]))| > 0
    ensures FilterKey(s, key, key(s[i]))[0] == s[i]
  {
    if i > 0 {
      FilterKeyHead(s[1..], key, i - 1);
    }
  }

  /** The head of a stable sort is the first element that has the least key. */
  lemma {:induction false} SortByKeyHead<T>(s: seq<T>, key: T -> int, i: nat)
    requires i < |s|
    requires forall j :: 0 <= j < |s| ==> key(s[i]) <= key(s[j])
    requires forall j :: 0 <= j < i ==> key(s[j]) != key(s[i])
    ensures SortByKey(s, key)[0] == s[i]
  {
    var r := SortByKey(s, key);
    var k := key(s[i]);
    assert r[0] in multiset(s) by { assert r[0] in multiset(r); }
    assert key(r[0]) == k by {
      assert s[i] in multiset(r) by { assert s[i] in multiset(s); }
      var p :| 0 <= p < |r| && r[p] == s[i];
      var q :| 0 <= q < |s| && s[q] == r[0];
      assert key(r[0]) <= key(r[p]);
    }
    FilterKeyHead(s, key, i);
    FilterKeyHead(r, key, 0);
    SortByKeyStable(s, key, k);
  }

  /** The index of the first element with the least key. */
  function FirstMinIndex<T>(s: seq<T>, key: T -> int): (i: nat)
    requires |s| > 0
    ensures i < |s|
    ensures forall j :: 0 <= j < |s| ==> key(s[i]) <= key(s[j])
    ensures forall j :: 0 <= j < i ==> key(s[j]) > key(s[i])
  {
    if |s| == 1 then 0
    else
      var k := FirstMinIndex(s[1..], key);
      if key(s[0]) <= key(s[k + 1]) then 0 else k + 1
  }
}
