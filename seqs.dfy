/** Sequence helpers: subsequences, and the order-keeping filter of `Array.prototype.filter`. */
module Seqs {

  /** `a` is `b` with some elements deleted. */
  predicate Subsequence<T(==)>(a: seq<T>, b: seq<T>)
    decreases |b|
  {
    if b == [] then a == []
    else (a != [] && a[0] == b[0] && Subsequence(a[1..], b[1..])) || Subsequence(a, b[1..])
  }

  lemma {:induction false} EmptyIsSubsequence<T>(b: seq<T>)
    ensures Subsequence([], b)
    decreases |b|
  {
    if b != [] {
      EmptyIsSubsequence(b[1..]);
    }
  }

  lemma {:induction false} SubsequenceReflexive<T>(a: seq<T>)
    ensures Subsequence(a, a)
    decreases |a|
  {
    if a != [] {
      SubsequenceReflexive(a[1..]);
    }
  }

  lemma {:induction false} SubsequenceConcat<T>(a1: seq<T>, b1: seq<T>, a2: seq<T>, b2: seq<T>)
    requires Subsequence(a1, b1) && Subsequence(a2, b2)
    ensures Subsequence(a1 + a2, b1 + b2)
    decreases |b1|
  {
    if b1 == [] {
      assert a1 + a2 == a2 && b1 + b2 == b2;
    } else if a1 != [] && a1[0] == b1[0] && Subsequence(a1[1..], b1[1..]) {
      SubsequenceConcat(a1[1..], b1[1..], a2, b2);
      assert (a1 + a2)[1..] == a1[1..] + a2;
      assert (b1 + b2)[1..] == b1[1..] + b2;
    } else {
      SubsequenceConcat(a1, b1[1..], a2, b2);
      assert (b1 + b2)[1..] == b1[1..] + b2;
    }
  }

  /** `xs.filter(keep)`, built from the back. */
  function Filter<T>(xs: seq<T>, keep: T -> bool): seq<T>
    decreases |xs|
  {
    if xs == [] then []
    else
      var n := |xs| - 1;
      Filter(xs[..n], keep) + (if keep(xs[n]) then [xs[n]] else [])
  }

  /** The filter keeps the elements that pass in their order. */
  lemma {:induction false} FilterInOrder<T>(xs: seq<T>, keep: T -> bool)
    ensures Subsequence(Filter(xs, keep), xs)
    decreases |xs|
  {
    if xs != [] {
      var n := |xs| - 1;
      var init := xs[..n];
      var tail := if keep(xs[n]) then [xs[n]] else [];
      FilterInOrder(init, keep);
      assert xs == init + [xs[n]];
      if keep(xs[n]) {
        SubsequenceReflexive([xs[n]]);
      } else {
        EmptyIsSubsequence([xs[n]]);
      }
      SubsequenceConcat(Filter(init, keep), init, tail, [xs[n]]);
    }
  }

  /** The filter keeps each element that passes as often as it occurs, and no other. */
  lemma {:induction false} FilterCounts<T>(xs: seq<T>, keep: T -> bool)
    ensures forall x :: multiset(Filter(xs, keep))[x] == if keep(x) then multiset(xs)[x] else 0
    decreases |xs|
  {
    if xs != [] {
      var n := |xs| - 1;
      var init := xs[..n];
      FilterCounts(init, keep);
      assert xs == init + [xs[n]];
    }
  }

  /**
   * The filter keeps the elements that pass, each as often as it occurs, in their
   * order, and nothing else.
   */
  lemma FilterKeeps<T>(xs: seq<T>, keep: T -> bool)
    ensures |Filter(xs, keep)| <= |xs|
    ensures Subsequence(Filter(xs, keep), xs)
    ensures forall x :: multiset(Filter(xs, keep))[x] == if keep(x) then multiset(xs)[x] else 0
  {
    FilterShorter(xs, keep);
    FilterInOrder(xs, keep);
    FilterCounts(xs, keep);
  }

  lemma {:induction false} FilterShorter<T>(xs: seq<T>, keep: T -> bool)
    ensures |Filter(xs, keep)| <= |xs|
    decreases |xs|
  {
    if xs != [] {
      FilterShorter(xs[..|xs| - 1], keep);
    }
  }

  /** The positions whose element passes. */
  function Positions<T>(xs: seq<T>, keep: T -> bool): set<int> {
    set i | 0 <= i < |xs| && keep(xs[i])
  }

  /** The length of the filter is the number of positions whose element passes. */
  lemma {:induction false} FilterCount<T>(xs: seq<T>, keep: T -> bool)
    ensures |Filter(xs, keep)| == |Positions(xs, keep)|
    decreases |xs|
  {
    var all := Positions(xs, keep);
    if xs == [] {
      assert all == {};
    } else {
      var n := |xs| - 1;
      var init := xs[..n];
      FilterCount(init, keep);
      var before := Positions(init, keep);
      if keep(xs[n]) {
        assert all == before + {n};
        assert n !in before;
      } else {
        assert all == before;
      }
    }
  }

  /** When every element passes, the filter keeps the whole sequence. */
  lemma {:induction false} FilterAll<T>(xs: seq<T>, keep: T -> bool)
    requires forall i :: 0 <= i < |xs| ==> keep(xs[i])
    ensures Filter(xs, keep) == xs
    decreases |xs|
  {
    if xs != [] {
      var n := |xs| - 1;
      FilterAll(xs[..n], keep);
      assert xs == xs[..n] + [xs[n]];
    }
  }

  /** When no element passes, the filter is empty. */
  lemma {:induction false} FilterNone<T>(xs: seq<T>, keep: T -> bool)
    requires forall i :: 0 <= i < |xs| ==> !keep(xs[i])
    ensures Filter(xs, keep) == []
    decreases |xs|
  {
    if xs != [] {
      FilterNone(xs[..|xs| - 1], keep);
    }
  }
}
