/**
 * Sequence vocabulary shared by the classifiers and the uploader: counting
 * occurrences, the set of distinct values, JavaScript's `Array.prototype.filter`
 * and order-preserving subsequences.
 */
module Sequences {

  /** Number of positions of `s` that hold `x` (`s.filter(e => e === x).length`). */
  function Occurrences<T(==)>(s: seq<T>, x: T): (n: nat)
    ensures n <= |s|
    ensures n == 0 <==> x !in s
  {
    if s == [] then 0 else (if s[0] == x then 1 else 0) + Occurrences(s[1..], x)
  }

  lemma {:induction false} OccurrencesAppend<T>(a: seq<T>, b: seq<T>, x: T)
    ensures Occurrences(a + b, x) == Occurrences(a, x) + Occurrences(b, x)
  {
    if a == [] {
      assert a + b == b;
    } else {
      assert (a + b)[1..] == a[1..] + b;
      OccurrencesAppend(a[1..], b, x);
    }
  }

  /** No value appears twice. */
  predicate NoDuplicates<T(==)>(s: seq<T>) {
    forall i, j :: 0 <= i < j < |s| ==> s[i] != s[j]
  }

  /** The values of `s` as a set (`new Set(s)`). */
  function Distinct<T(==,!new)>(s: seq<T>): (d: set<T>)
    ensures forall x :: x in d <==> x in s
    ensures |d| <= |s|
  {
    if s == [] then {} else
      var rest := Distinct(s[1..]);
      assert |{s[0]} + rest| <= |rest| + 1 by {
        if s[0] in rest { assert {s[0]} + rest == rest; }
      }
      {s[0]} + rest
  }

  /** `new Set(s).size === |s|` holds exactly when no value of `s` is repeated. */
  lemma {:induction false} DistinctSize<T(!new)>(s: seq<T>)
    ensures |Distinct(s)| == |s| <==> NoDuplicates(s)
  {
    if s != [] {
      var rest := s[1..];
      DistinctSize(rest);
      NoDuplicatesCons(s);
      if s[0] in rest {
        assert Distinct(s) == Distinct(rest);
      } else {
        assert Distinct(s) == {s[0]} + Distinct(rest);
      }
    }
  }

  lemma {:induction false} NoDuplicatesCons<T>(s: seq<T>)
    requires s != []
    ensures NoDuplicates(s) <==> s[0] !in s[1..] && NoDuplicates(s[1..])
  {
    var rest := s[1..];
    if s[0] in rest {
      var k :| 0 <= k < |rest| && rest[k] == s[0];
      assert s[0] == s[k + 1];
    } else if NoDuplicates(rest) {
      forall i, j | 0 <= i < j < |s| ensures s[i] != s[j] {
        if i > 0 { assert s[i] == rest[i - 1] && s[j] == rest[j - 1]; }
        else { assert s[j] == rest[j - 1]; }
      }
    } else {
      var i, j :| 0 <= i < j < |rest| && rest[i] == rest[j];
      assert s[i + 1] == s[j + 1];
    }
  }

  /** `s.filter(p)`: the elements of `s` that satisfy `p`, in their original order. */
  function Filter<T(!new)>(s: seq<T>, p: T -> bool): (r: seq<T>)
    ensures |r| <= |s|
    ensures forall x :: x in r <==> x in s && p(x)
  {
    if s == [] then []
    else if p(s[0]) then [s[0]] + Filter(s[1..], p)
    else Filter(s[1..], p)
  }

  /** `a` can be obtained from `b` by deleting elements, without reordering. */
  predicate IsSubsequence<T(==)>(a: seq<T>, b: seq<T>)
    decreases |b|
  {
    a == [] || (b != [] && ((a[0] == b[0] && IsSubsequence(a[1..], b[1..])) || IsSubsequence(a, b[1..])))
  }

  lemma {:induction false} SubsequenceLength<T>(a: seq<T>, b: seq<T>)
    requires IsSubsequence(a, b)
    ensures |a| <= |b|
    decreases |b|
  {
    if a != [] {
      if a[0] == b[0] && IsSubsequence(a[1..], b[1..]) {
        SubsequenceLength(a[1..], b[1..]);
      } else {
        SubsequenceLength(a, b[1..]);
      }
    }
  }

  lemma {:induction false} FilterIsSubsequence<T(!new)>(s: seq<T>, p: T -> bool)
    ensures IsSubsequence(Filter(s, p), s)
  {
    if s != [] {
      FilterIsSubsequence(s[1..], p);
    }
  }

  /** Filtering keeps every occurrence of a value that passes and none of one that fails. */
  lemma {:induction false} FilterOccurrences<T(!new)>(s: seq<T>, p: T -> bool, x: T)
    ensures Occurrences(Filter(s, p), x) == if p(x) then Occurrences(s, x) else 0
  {
    if s != [] {
      FilterOccurrences(s[1..], p, x);
      if p(s[0]) {
        assert ([s[0]] + Filter(s[1..], p))[1..] == Filter(s[1..], p);
      }
    }
  }

  /** Filtering a second time by the same predicate changes nothing. */
  lemma {:induction false} FilterIdempotent<T(!new)>(s: seq<T>, p: T -> bool)
    ensures Filter(Filter(s, p), p) == Filter(s, p)
  {
    if s != [] {
      FilterIdempotent(s[1..], p);
      if p(s[0]) {
        assert ([s[0]] + Filter(s[1..], p))[1..] == Filter(s[1..], p);
      }
    }
  }

  /** Filtering by `p` and then by `q` is filtering once by their conjunction `both`. */
  lemma {:induction false} FilterFusion<T(!new)>(s: seq<T>, p: T -> bool, q: T -> bool, both: T -> bool)
    requires forall x :: both(x) == (p(x) && q(x))
    ensures Filter(Filter(s, p), q) == Filter(s, both)
  {
    if s != [] {
      FilterFusion(s[1..], p, q, both);
      if p(s[0]) {
        assert ([s[0]] + Filter(s[1..], p))[1..] == Filter(s[1..], p);
      }
    }
  }

  /** A stronger predicate keeps a subsequence of what a weaker one keeps. */
  lemma {:induction false} FilterMonotone<T(!new)>(s: seq<T>, p: T -> bool, q: T -> bool)
    requires forall x :: p(x) ==> q(x)
    ensures IsSubsequence(Filter(s, p), Filter(s, q))
  {
    if s != [] {
      var a, b := Filter(s[1..], p), Filter(s[1..], q);
      FilterMonotone(s[1..], p, q);
      if p(s[0]) {
        assert ([s[0]] + a)[1..] == a && ([s[0]] + b)[1..] == b;
      } else if q(s[0]) {
        assert ([s[0]] + b)[1..] == b;
      }
    }
  }

  /** Sum, over the values listed in `ks`, of how often each occurs in `items`. */
  function SumOccurrences<T(==)>(items: seq<T>, ks: seq<T>): nat {
    if ks == [] then 0 else Occurrences(items, ks[0]) + SumOccurrences(items, ks[1..])
  }

  lemma {:induction false} SumOccurrencesCons<T>(x: T, rest: seq<T>, ks: seq<T>)
    ensures SumOccurrences([x] + rest, ks) == Occurrences(ks, x) + SumOccurrences(rest, ks)
  {
    if ks != [] {
      SumOccurrencesCons(x, rest, ks[1..]);
      assert ([x] + rest)[1..] == rest;
    }
  }

  lemma {:induction false} OccurrencesUnique<T>(ks: seq<T>, x: T)
    requires NoDuplicates(ks) && x in ks
    ensures Occurrences(ks, x) == 1
  {
    if ks[0] == x {
      assert x !in ks[1..] by {
        forall k | 0 <= k < |ks[1..]| ensures ks[1..][k] != x {
          assert ks[1..][k] == ks[k + 1];
        }
      }
    } else {
      OccurrencesUnique(ks[1..], x);
    }
  }

  /**
   * When every item is one of the pairwise-distinct keys, the per-key counts add up
   * to the number of items.
   */
  lemma {:induction false} SumOccurrencesTotal<T>(items: seq<T>, ks: seq<T>)
    requires NoDuplicates(ks)
    requires forall x :: x in items ==> x in ks
    ensures SumOccurrences(items, ks) == |items|
  {
    if items == [] {
      assert SumOccurrences(items, ks) == 0 by { SumOccurrencesEmpty(ks); }
    } else {
      var rest := items[1..];
      assert items == [items[0]] + rest;
      SumOccurrencesCons(items[0], rest, ks);
      OccurrencesUnique(ks, items[0]);
      SumOccurrencesTotal(rest, ks);
    }
  }

  lemma {:induction false} SumOccurrencesEmpty<T>(ks: seq<T>)
    ensures SumOccurrences([], ks) == 0
  {
    if ks != [] { SumOccurrencesEmpty(ks[1..]); }
  }

  /** Concatenation of a sequence of sequences, in order. */
  function Flatten<T>(ss: seq<seq<T>>): seq<T> {
    if ss == [] then [] else ss[0] + Flatten(ss[1..])
  }

  lemma {:induction false} FlattenAppend<T>(a: seq<seq<T>>, b: seq<seq<T>>)
    ensures Flatten(a + b) == Flatten(a) + Flatten(b)
  {
    if a == [] {
      assert a + b == b;
    } else {
      FlattenAppend(a[1..], b);
      assert (a + b)[1..] == a[1..] + b;
      calc {
        Flatten(a + b);
        a[0] + Flatten(a[1..] + b);
        a[0] + (Flatten(a[1..]) + Flatten(b));
        (a[0] + Flatten(a[1..])) + Flatten(b);
      }
    }
  }

  /** Every element of every part is an element of the concatenation, and back. */
  lemma {:induction false} InFlatten<T>(ss: seq<seq<T>>, x: T)
    ensures x in Flatten(ss) <==> exists i :: 0 <= i < |ss| && x in ss[i]
  {
    if ss != [] {
      InFlatten(ss[1..], x);
      if x in Flatten(ss[1..]) {
        var i :| 0 <= i < |ss[1..]| && x in ss[1..][i];
        assert x in ss[i + 1];
      }
      if exists i :: 0 <= i < |ss| && x in ss[i] {
        var i :| 0 <= i < |ss| && x in ss[i];
        if i > 0 { assert x in ss[1..][i - 1]; }
      }
    }
  }
}
