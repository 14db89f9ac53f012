/** `Array.prototype.filter` and `[...new Set(xs)]`, with the facts the callers
    rely on: a filter keeps exactly the matching elements in their original
    order, and the spread of a set lists each distinct element once. */
module Seqs {

  /** The number of positions of `xs` whose element satisfies `p`. */
  function Count<T>(xs: seq<T>, p: T -> bool): nat
    decreases |xs|
  {
    if |xs| == 0 then 0 else (if p(xs[0]) then 1 else 0) + Count(xs[1..], p)
  }

  /** `s` can be obtained from `xs` by deleting elements. */
  predicate IsSubsequence<T(==)>(s: seq<T>, xs: seq<T>)
    decreases |xs|
  {
    |s| == 0
    || (|xs| > 0
        && ((s[0] == xs[0] && IsSubsequence(s[1..], xs[1..])) || IsSubsequence(s, xs[1..])))
  }

  /** `xs.filter(p)` */
  function Filter<T(!new)>(xs: seq<T>, p: T -> bool): (r: seq<T>)
    ensures |r| == Count(xs, p)
    ensures forall i :: 0 <= i < |r| ==> p(r[i])
    ensures forall x :: x in r <==> x in xs && p(x)
    decreases |xs|
  {
    if |xs| == 0 then []
    else
      var rest := Filter(xs[1..], p);
      assert forall x :: x in xs <==> x == xs[0] || x in xs[1..];
      if p(xs[0]) then [xs[0]] + rest else rest
  }

  /** Filtering distributes over concatenation: what is kept from a prefix
      comes before what is kept from the rest. */
  lemma {:induction false} FilterConcat<T(!new)>(a: seq<T>, b: seq<T>, p: T -> bool)
    ensures Filter(a + b, p) == Filter(a, p) + Filter(b, p)
    decreases |a|
  {
    if |a| > 0 {
      FilterConcat(a[1..], b, p);
      assert (a + b)[0] == a[0];
      assert (a + b)[1..] == a[1..] + b;
    } else {
      assert a + b == b;
    }
  }

  /** A filter keeps the order of the elements it keeps. */
  lemma {:induction false} FilterIsSubsequence<T(!new)>(xs: seq<T>, p: T -> bool)
    ensures IsSubsequence(Filter(xs, p), xs)
    decreases |xs|
  {
    if |xs| > 0 {
      FilterIsSubsequence(xs[1..], p);
      var r := Filter(xs, p);
      if p(xs[0]) {
        assert r[0] == xs[0] && r[1..] == Filter(xs[1..], p);
      } else {
        assert r == Filter(xs[1..], p);
      }
    }
  }

  /** A subsequence of matching elements is no longer than the number of
      matching positions. */
  lemma {:induction false} SubsequenceBound<T(!new)>(s: seq<T>, xs: seq<T>, p: T -> bool)
    requires IsSubsequence(s, xs)
    requires forall i :: 0 <= i < |s| ==> p(s[i])
    ensures |s| <= Count(xs, p)
    decreases |xs|
  {
    if |s| > 0 {
      if s[0] == xs[0] && IsSubsequence(s[1..], xs[1..]) {
        SubsequenceBound(s[1..], xs[1..], p);
      } else {
        SubsequenceBound(s, xs[1..], p);
      }
    }
  }

  /** The filter is the ONLY order-preserving selection of matching elements
      that keeps as many elements as there are matches. */
  lemma {:induction false} FilterUnique<T(!new)>(s: seq<T>, xs: seq<T>, p: T -> bool)
    requires IsSubsequence(s, xs)
    requires forall i :: 0 <= i < |s| ==> p(s[i])
    requires |s| == Count(xs, p)
    ensures s == Filter(xs, p)
    decreases |xs|
  {
    if |xs| == 0 {
    } else if |s| == 0 {
      var r := Filter(xs, p);
      assert |r| == 0;
    } else if s[0] == xs[0] && IsSubsequence(s[1..], xs[1..]) {
      FilterUnique(s[1..], xs[1..], p);
      assert s == [s[0]] + s[1..];
    } else {
      assert IsSubsequence(s, xs[1..]);
      SubsequenceBound(s, xs[1..], p);
      if p(xs[0]) {
        assert false;
      }
      FilterUnique(s, xs[1..], p);
    }
  }

  /** Filtering an already filtered sequence changes nothing. */
  lemma {:induction false} FilterIdempotent<T(!new)>(xs: seq<T>, p: T -> bool)
    ensures Filter(Filter(xs, p), p) == Filter(xs, p)
    decreases |xs|
  {
    if |xs| > 0 {
      FilterIdempotent(xs[1..], p);
      var rest := Filter(xs[1..], p);
      if p(xs[0]) {
        assert ([xs[0]] + rest)[1..] == rest;
      }
    }
  }

  /** Every element of `s` occurs once. */
  predicate NoDuplicates<T(==)>(s: seq<T>)
  {
    forall i, j :: 0 <= i < j < |s| ==> s[i] != s[j]
  }

  /** The distinct elements of `xs` as the set of the element values. */
  function Elements<T>(xs: seq<T>): set<T>
  {
    set x | x in xs
  }

  /** `[...new Set(xs)]`: each distinct element once, in the order of its first
      occurrence (a JavaScript `Set` iterates in insertion order). */
  function Distinct<T(==,!new)>(xs: seq<T>): (r: seq<T>)
    ensures forall x :: x in r <==> x in xs
    ensures NoDuplicates(r)
    ensures |r| <= |xs|
    decreases |xs|
  {
    if |xs| == 0 then []
    else
      var init := xs[..|xs| - 1];
      var last := xs[|xs| - 1];
      var d := Distinct(init);
      assert forall x :: x in xs <==> x in init || x == last by {
        assert xs == init + [last];
      }
      if last in d then d else d + [last]
  }

  /** A duplicate-free sequence is as long as its set of elements is large. */
  lemma {:induction false} NoDuplicatesCardinality<T>(s: seq<T>)
    requires NoDuplicates(s)
    ensures |Elements(s)| == |s|
    decreases |s|
  {
    if |s| > 0 {
      var init := s[..|s| - 1];
      var last := s[|s| - 1];
      assert NoDuplicates(init);
      NoDuplicatesCardinality(init);
      assert s == init + [last];
      assert last !in init;
      assert Elements(s) == Elements(init) + {last};
    }
  }

  /** The length of `[...new Set(xs)]` is the number of distinct values in `xs`. */
  lemma DistinctLength<T(!new)>(xs: seq<T>)
    ensures |Distinct(xs)| == |Elements(xs)|
  {
    var d := Distinct(xs);
    NoDuplicatesCardinality(d);
    assert Elements(d) == Elements(xs);
  }
}
