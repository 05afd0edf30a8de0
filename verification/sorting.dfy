/**
 * A stable sort into descending order of a real-valued key: what
 * `arr.sort((a, b) => key(b) - key(a))` computes on an engine whose sort is
 * stable (ECMAScript 2019 and later).
 */
module Sorting {

  import opened Seqs

  ghost predicate SortedDesc<T>(s: seq<T>, key: T -> real)
  {
    forall i, j :: 0 <= i < j < |s| ==> key(s[i]) >= key(s[j])
  }

  /** The elements of `s` whose key is `v`, in their order in `s`. */
  function WithKey<T>(s: seq<T>, key: T -> real, v: real): seq<T>
  {
    if s == [] then []
    else (if key(s[0]) == v then [s[0]] else []) + WithKey(s[1..], key, v)
  }

  lemma {:induction false} WithKeyAppend<T>(a: seq<T>, b: seq<T>, key: T -> real, v: real)
    ensures WithKey(a + b, key, v) == WithKey(a, key, v) + WithKey(b, key, v)
  {
    if a == [] {
      assert a + b == b;
    } else {
      var t := a[1..];
      var h := if key(a[0]) == v then [a[0]] else [];
      assert (a + b)[0] == a[0] && (a + b)[1..] == t + b;
      WithKeyAppend(t, b, key, v);
      assert WithKey(a + b, key, v) == h + WithKey(t + b, key, v);
      assert WithKey(a, key, v) == h + WithKey(t, key, v);
      assert h + (WithKey(t, key, v) + WithKey(b, key, v)) == (h + WithKey(t, key, v)) + WithKey(b, key, v);
    }
  }

  /** Places `x` in front of the first element whose key does not exceed its own. */
  function Insert<T>(x: T, s: seq<T>, key: T -> real): (r: seq<T>)
    ensures multiset(r) == multiset(s) + multiset{x}
    ensures |r| == |s| + 1
  {
    if s == [] || key(s[0]) <= key(x) then [x] + s
    else
      assert s == [s[0]] + s[1..];
      [s[0]] + Insert(x, s[1..], key)
  }

  lemma {:induction false} InsertSorted<T>(x: T, s: seq<T>, key: T -> real)
    requires SortedDesc(s, key)
    ensures SortedDesc(Insert(x, s, key), key)
  {
    if s != [] && key(s[0]) > key(x) {
      var rest := Insert(x, s[1..], key);
      InsertSorted(x, s[1..], key);
      forall i | 0 <= i < |rest| ensures key(rest[i]) <= key(s[0]) {
        var y := rest[i];
        assert y in multiset(rest);
        if y != x {
          assert y in s[1..];
        }
      }
    }
  }

  /** Insertion sort, descending by `key`, keeping equal keys in input order. */
  function SortDesc<T>(s: seq<T>, key: T -> real): (r: seq<T>)
    ensures SortedDesc(r, key)
    ensures multiset(r) == multiset(s)
    ensures |r| == |s|
  {
    if s == [] then []
    else
      assert s == [s[0]] + s[1..];
      InsertSorted(s[0], SortDesc(s[1..], key), key);
      Insert(s[0], SortDesc(s[1..], key), key)
  }

  /** No two elements share the same `tag`. */
  ghost predicate DistinctBy<T, U>(s: seq<T>, tag: T -> U)
  {
    forall i, j :: 0 <= i < j < |s| ==> tag(s[i]) != tag(s[j])
  }

  lemma {:induction false} InsertDistinctBy<T, U>(x: T, s: seq<T>, key: T -> real, tag: T -> U)
    requires DistinctBy(s, tag)
    requires forall i :: 0 <= i < |s| ==> tag(s[i]) != tag(x)
    ensures DistinctBy(Insert(x, s, key), tag)
  {
    if s != [] && key(s[0]) > key(x) {
      var rest := Insert(x, s[1..], key);
      InsertDistinctBy(x, s[1..], key, tag);
      forall i | 0 <= i < |rest| ensures tag(rest[i]) != tag(s[0]) {
        var y := rest[i];
        assert y in multiset(rest);
        if y != x {
          assert y in s[1..];
        }
      }
    }
  }

  /** Sorting keeps a tag that was unique per element unique. */
  lemma {:induction false} SortDescDistinctBy<T, U>(s: seq<T>, key: T -> real, tag: T -> U)
    requires DistinctBy(s, tag)
    ensures DistinctBy(SortDesc(s, key), tag)
  {
    if s != [] {
      var t := SortDesc(s[1..], key);
      SortDescDistinctBy(s[1..], key, tag);
      forall i | 0 <= i < |t| ensures tag(t[i]) != tag(s[0]) {
        assert t[i] in multiset(s[1..]);
      }
      InsertDistinctBy(s[0], t, key, tag);
    }
  }

  lemma {:induction false} InsertWithKey<T>(x: T, s: seq<T>, key: T -> real, v: real)
    ensures WithKey(Insert(x, s, key), key, v) == (if key(x) == v then [x] else []) + WithKey(s, key, v)
  {
    if s == [] || key(s[0]) <= key(x) {
      WithKeyAppend([x], s, key, v);
    } else {
      var rest := Insert(x, s[1..], key);
      WithKeyAppend([s[0]], rest, key, v);
      InsertWithKey(x, s[1..], key, v);
      WithKeyAppend([s[0]], s[1..], key, v);
      assert s == [s[0]] + s[1..];
    }
  }

  /**
   * Stability: for every key value, the elements carrying it appear in the sorted
   * output exactly as, and in the same order as, in the input.
   */
  lemma {:induction false} SortDescStable<T>(s: seq<T>, key: T -> real, v: real)
    ensures WithKey(SortDesc(s, key), key, v) == WithKey(s, key, v)
  {
    if s != [] {
      SortDescStable(s[1..], key, v);
      InsertWithKey(s[0], SortDesc(s[1..], key), key, v);
    }
  }

  lemma {:induction false} InsertKeySum<T>(x: T, s: seq<T>, key: T -> real)
    ensures SumBy(Insert(x, s, key), key) == key(x) + SumBy(s, key)
  {
    if s != [] && key(s[0]) > key(x) {
      InsertKeySum(x, s[1..], key);
    }
  }

  /** Sorting keeps the sum of the keys. */
  lemma {:induction false} SortDescKeySum<T>(s: seq<T>, key: T -> real)
    ensures SumBy(SortDesc(s, key), key) == SumBy(s, key)
  {
    if s != [] {
      SortDescKeySum(s[1..], key);
      InsertKeySum(s[0], SortDesc(s[1..], key), key);
    }
  }
}
