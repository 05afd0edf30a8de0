/** Sequence helpers: left-to-right sums, first-occurrence deduplication and `slice(0, n)`. */
module Seqs {

  function Last<T>(s: seq<T>): T
    requires |s| > 0
  {
    s[|s| - 1]
  }

  function DropLast<T>(s: seq<T>): seq<T>
    requires |s| > 0
  {
    s[..|s| - 1]
  }

  /** Splitting off the last element of a concatenation with a non-empty tail. */
  lemma LastOfAppend<T>(a: seq<T>, b: seq<T>)
    requires |b| > 0
    ensures DropLast(a + b) == a + DropLast(b)
    ensures Last(a + b) == Last(b)
  {
  }

  /** The sum of `f` over the elements of `s` (a `reduce` that adds `f(x)` to a zero start). */
  function SumBy<T>(s: seq<T>, f: T -> real): real
  {
    if s == [] then 0.0 else f(s[0]) + SumBy(s[1..], f)
  }

  function Identity(x: real): real { x }

  lemma {:induction false} SumByAppend<T>(a: seq<T>, b: seq<T>, f: T -> real)
    ensures SumBy(a + b, f) == SumBy(a, f) + SumBy(b, f)
  {
    if a == [] {
      assert a + b == b;
    } else {
      assert (a + b)[1..] == a[1..] + b;
      SumByAppend(a[1..], b, f);
    }
  }

  lemma {:induction false} SumByUpdate<T>(s: seq<T>, i: nat, x: T, f: T -> real)
    requires i < |s|
    ensures SumBy(s[i := x], f) == SumBy(s, f) - f(s[i]) + f(x)
  {
    if i > 0 {
      assert s[i := x][1..] == s[1..][i - 1 := x];
      SumByUpdate(s[1..], i - 1, x, f);
    }
  }

  /** Two sequences that agree pointwise under `f` and `g` have the same sums. */
  lemma {:induction false} SumByPointwise<T, U>(s: seq<T>, f: T -> real, t: seq<U>, g: U -> real)
    requires |s| == |t|
    requires forall i :: 0 <= i < |s| ==> f(s[i]) == g(t[i])
    ensures SumBy(s, f) == SumBy(t, g)
  {
    if s != [] {
      SumByPointwise(s[1..], f, t[1..], g);
    }
  }

  lemma {:induction false} SumByZero<T>(s: seq<T>, f: T -> real)
    requires forall i :: 0 <= i < |s| ==> f(s[i]) == 0.0
    ensures SumBy(s, f) == 0.0
  {
    if s != [] {
      SumByZero(s[1..], f);
    }
  }

  /** No element occurs twice. */
  predicate NoDups<T(==)>(s: seq<T>)
  {
    forall i, j :: 0 <= i < j < |s| ==> s[i] != s[j]
  }

  /** The position of the first occurrence of `x`. */
  function FirstIndex<T(==)>(s: seq<T>, x: T): (r: nat)
    requires x in s
    ensures r < |s| && s[r] == x
    ensures forall j :: 0 <= j < r ==> s[j] != x
  {
    if s[0] == x then 0 else 1 + FirstIndex(s[1..], x)
  }

  lemma FirstIndexOfPrefix<T>(s: seq<T>, y: T, x: T)
    requires x in s
    ensures FirstIndex(s + [y], x) == FirstIndex(s, x)
  {
    var i := FirstIndex(s, x);
    assert (s + [y])[i] == x;
  }

  /**
   * The elements of `s` in order of first occurrence, each once: the key order of a
   * JavaScript object that is filled by inserting the keys of `s` in turn.
   */
  function Dedup<T(==)>(s: seq<T>): (r: seq<T>)
    ensures NoDups(r)
    ensures forall i :: 0 <= i < |s| ==> s[i] in r
    ensures forall i :: 0 <= i < |r| ==> r[i] in s
    ensures |r| <= |s|
  {
    if s == [] then []
    else
      var p := Dedup(DropLast(s));
      assert s == DropLast(s) + [Last(s)];
      if Last(s) in p then p else p + [Last(s)]
  }

  /** The deduplicated elements come out in the order in which they first occur. */
  lemma {:induction false} DedupFirstOccurrenceOrder<T>(s: seq<T>)
    ensures forall i, j :: 0 <= i < j < |Dedup(s)| ==>
      FirstIndex(s, Dedup(s)[i]) < FirstIndex(s, Dedup(s)[j])
  {
    if s != [] {
      var pre, x := DropLast(s), Last(s);
      assert s == pre + [x];
      DedupFirstOccurrenceOrder(pre);
      var p := Dedup(pre);
      forall y | y in pre
        ensures FirstIndex(s, y) == FirstIndex(pre, y)
      {
        FirstIndexOfPrefix(pre, x, y);
      }
      if x !in p {
        assert x !in pre;
        assert FirstIndex(s, x) == |pre|;
      }
    }
  }

  /** A sequence without repetitions is its own deduplication. */
  lemma {:induction false} DedupOfNoDups<T>(s: seq<T>)
    requires NoDups(s)
    ensures Dedup(s) == s
  {
    if s != [] {
      var pre, x := DropLast(s), Last(s);
      assert s == pre + [x];
      assert NoDups(pre) by {
        forall i, j | 0 <= i < j < |pre| ensures pre[i] != pre[j] {
          assert pre[i] == s[i] && pre[j] == s[j];
        }
      }
      DedupOfNoDups(pre);
      assert x !in pre by {
        forall i | 0 <= i < |pre| ensures pre[i] != x {
          assert pre[i] == s[i] && x == s[|s| - 1];
        }
      }
      assert Dedup(s) == pre + [x];
    }
  }

  /** Deduplicating `a + b` keeps a repetition-free `a` as its prefix. */
  lemma {:induction false} DedupKeepsPrefix<T>(a: seq<T>, b: seq<T>)
    requires NoDups(a)
    ensures |Dedup(a + b)| >= |a|
    ensures Dedup(a + b)[..|a|] == a
    decreases |b|
  {
    if b == [] {
      assert a + b == a;
      DedupOfNoDups(a);
    } else {
      assert DropLast(a + b) == a + DropLast(b);
      DedupKeepsPrefix(a, DropLast(b));
    }
  }

  /** `s.slice(0, n)`: the first `min(n, |s|)` elements. */
  function Take<T>(s: seq<T>, n: nat): (r: seq<T>)
    ensures |r| == if n < |s| then n else |s|
    ensures forall i :: 0 <= i < |r| ==> r[i] == s[i]
  {
    if n < |s| then s[..n] else s
  }
}
