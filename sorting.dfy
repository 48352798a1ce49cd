/**
 * The two sorts the template managers, the cache-key builder and the prompt
 * library rely on: Python's `sorted(..., key=k, reverse=True)` on integer
 * keys, which is stable (equal keys keep their input order), and `sorted` on
 * strings, which orders them by code point.
 */
module Sorting {
  import opened Text

  // ------------------------------------------------------------ descending by an integer key

  /** Non-increasing by `key`. */
  predicate SortedDesc<T>(xs: seq<T>, key: T -> int)
  {
    forall i, j :: 0 <= i < j < |xs| ==> key(xs[i]) >= key(xs[j])
  }

  /** The elements whose key is `k`, in their order. */
  function WithKey<T>(xs: seq<T>, key: T -> int, k: int): seq<T>
  {
    if xs == [] then [] else (if key(xs[0]) == k then [xs[0]] else []) + WithKey(xs[1..], key, k)
  }

  /** `x` goes in front of the first element whose key does not exceed its own. */
  function InsertDesc<T>(x: T, ys: seq<T>, key: T -> int): (r: seq<T>)
    requires SortedDesc(ys, key)
    ensures |r| == |ys| + 1
    ensures SortedDesc(r, key)
    ensures multiset(r) == multiset(ys) + multiset{x}
    ensures r[0] == x || (ys != [] && r[0] == ys[0])
  {
    if ys == [] || key(ys[0]) <= key(x) then [x] + ys
    else
      assert ys == [ys[0]] + ys[1..];
      [ys[0]] + InsertDesc(x, ys[1..], key)
  }

  /** Python's stable `sorted(xs, key=key, reverse=True)`. */
  function SortDesc<T>(xs: seq<T>, key: T -> int): (r: seq<T>)
    ensures |r| == |xs|
    ensures SortedDesc(r, key)
    ensures multiset(r) == multiset(xs)
  {
    if xs == [] then []
    else
      assert xs == [xs[0]] + xs[1..];
      InsertDesc(xs[0], SortDesc(xs[1..], key), key)
  }

  lemma WithKeyCons<T>(a: T, s: seq<T>, key: T -> int, k: int)
    ensures WithKey([a] + s, key, k) == (if key(a) == k then [a] else []) + WithKey(s, key, k)
  {
    assert ([a] + s)[1..] == s;
  }

  lemma {:induction false} InsertDescWithKey<T>(x: T, ys: seq<T>, key: T -> int, k: int)
    requires SortedDesc(ys, key)
    ensures WithKey(InsertDesc(x, ys, key), key, k) == (if key(x) == k then [x] else []) + WithKey(ys, key, k)
  {
    if ys == [] || key(ys[0]) <= key(x) {
      WithKeyCons(x, ys, key, k);
    } else {
      var rest := InsertDesc(x, ys[1..], key);
      InsertDescWithKey(x, ys[1..], key, k);
      WithKeyCons(ys[0], rest, key, k);
      assert ys == [ys[0]] + ys[1..];
      WithKeyCons(ys[0], ys[1..], key, k);
      if key(ys[0]) == k {
        assert WithKey(rest, key, k) == WithKey(ys[1..], key, k);
      } else if key(x) == k {
        assert WithKey([ys[0]] + rest, key, k) == [x] + WithKey(ys[1..], key, k);
      }
    }
  }

  /** Stability: among elements with the same key, the sort keeps the input order. */
  lemma {:induction false} SortDescStable<T>(xs: seq<T>, key: T -> int, k: int)
    ensures WithKey(SortDesc(xs, key), key, k) == WithKey(xs, key, k)
  {
    if xs != [] {
      SortDescStable(xs[1..], key, k);
      InsertDescWithKey(xs[0], SortDesc(xs[1..], key), key, k);
    }
  }

  // ------------------------------------------------------------ strings

  /** Non-decreasing in Python's string order. */
  predicate SortedStrings(s: seq<string>)
  {
    forall i, j :: 0 <= i < j < |s| ==> !LexLess(s[j], s[i])
  }

  lemma LexLessAsymmetric(a: string, b: string)
    requires LexLess(a, b)
    ensures !LexLess(b, a)
  {
    if LexLess(b, a) {
      LexLessTransitive(a, b, a);
      LexLessIrreflexive(a);
    }
  }

  /** `x` is not below any element of a sorted `s` whose head is not below `x`. */
  lemma AtMostAll(x: string, s: seq<string>)
    requires SortedStrings(s) && s != [] && !LexLess(s[0], x)
    ensures forall j :: 0 <= j < |s| ==> !LexLess(s[j], x)
  {
    forall j | 0 <= j < |s|
      ensures !LexLess(s[j], x)
    {
      if LexLess(s[j], x) {
        LexLessTotal(s[0], s[j]);
        if s[0] != s[j] {
          LexLessTransitive(s[0], s[j], x);
        }
      }
    }
  }

  function InsertString(x: string, s: seq<string>): (r: seq<string>)
    requires SortedStrings(s)
    ensures |r| == |s| + 1
    ensures SortedStrings(r)
    ensures multiset(r) == multiset(s) + multiset{x}
    ensures r[0] == x || (s != [] && r[0] == s[0])
  {
    if s == [] then [x]
    else if !LexLess(s[0], x) then
      AtMostAll(x, s);
      [x] + s
    else
      assert s == [s[0]] + s[1..];
      var rest := InsertString(x, s[1..]);
      LexLessAsymmetric(s[0], x);
      assert forall j :: 0 <= j < |rest| ==> !LexLess(rest[j], s[0]) by {
        forall j | 0 <= j < |rest| ensures !LexLess(rest[j], s[0]) {
          assert rest[j] in multiset(s[1..]) + multiset{x};
          if rest[j] != x {
            assert rest[j] in s[1..];
          }
        }
      }
      [s[0]] + rest
  }

  /** Python's `sorted` on a list of strings. */
  function SortStrings(s: seq<string>): (r: seq<string>)
    ensures |r| == |s|
    ensures SortedStrings(r)
    ensures multiset(r) == multiset(s)
  {
    if s == [] then []
    else
      assert s == [s[0]] + s[1..];
      InsertString(s[0], SortStrings(s[1..]))
  }

  lemma TailSorted(a: seq<string>)
    requires SortedStrings(a) && a != []
    ensures SortedStrings(a[1..])
  {
    forall i, j | 0 <= i < j < |a| - 1 ensures !LexLess(a[1..][j], a[1..][i]) {
      assert a[1..][j] == a[j + 1] && a[1..][i] == a[i + 1];
    }
  }

  /** The head of a sorted sequence is not above any element. */
  lemma HeadIsLeast(a: seq<string>, x: string)
    requires SortedStrings(a) && x in a
    ensures !LexLess(x, a[0])
  {
    var i :| 0 <= i < |a| && a[i] == x;
    if i == 0 { LexLessIrreflexive(x); }
  }

  lemma TailMultiset(a: seq<string>)
    requires a != []
    ensures multiset(a[1..]) == multiset(a) - multiset{a[0]}
  {
    assert a == [a[0]] + a[1..];
  }

  /** A sorted arrangement of a multiset of strings is unique. */
  lemma {:induction false} SortedStringsUnique(a: seq<string>, b: seq<string>)
    requires SortedStrings(a) && SortedStrings(b) && multiset(a) == multiset(b)
    ensures a == b
  {
    if a != [] {
      assert |b| == |a| by { assert |multiset(b)| == |multiset(a)|; }
      assert a[0] == b[0] by {
        assert a[0] in multiset(b) && b[0] in multiset(a);
        HeadIsLeast(b, a[0]);
        HeadIsLeast(a, b[0]);
        LexLessTotal(a[0], b[0]);
      }
      TailMultiset(a);
      TailMultiset(b);
      TailSorted(a);
      TailSorted(b);
      SortedStringsUnique(a[1..], b[1..]);
      assert a == [a[0]] + a[1..] && b == [b[0]] + b[1..];
    }
  }

  /** Hence sorting forgets the order it was given. */
  lemma SortStringsOrderFree(a: seq<string>, b: seq<string>)
    requires multiset(a) == multiset(b)
    ensures SortStrings(a) == SortStrings(b)
  {
    SortedStringsUnique(SortStrings(a), SortStrings(b));
  }
}
