// `Array.prototype.filter` and the facts the page filters rely on: the
// result is the elements that pass, in their original order, and a chain of
// filters is one filter by the conjunction.
module Lists {
  /** `xs.filter(p)`. */
  function Filter<T>(xs: seq<T>, p: T -> bool): (r: seq<T>)
    ensures |r| <= |xs|
  {
    if xs == [] then []
    else
      var init := Filter(xs[..|xs| - 1], p);
      if p(xs[|xs| - 1]) then init + [xs[|xs| - 1]] else init
  }

  /** The result holds exactly the elements that pass. */
  lemma {:induction false} FilterMembers<T>(xs: seq<T>, p: T -> bool)
    ensures forall x :: x in Filter(xs, p) <==> x in xs && p(x)
    decreases |xs|
  {
    if xs != [] {
      var n := |xs| - 1;
      FilterMembers(xs[..n], p);
      assert xs == xs[..n] + [xs[n]];
    }
  }

  /** `sub` is `xs` with some elements left out, the rest in their order. */
  predicate Subsequence<T(==)>(sub: seq<T>, xs: seq<T>)
    decreases |xs|
  {
    if xs == [] then sub == []
    else
      Subsequence(sub, xs[..|xs| - 1])
      || (sub != [] && sub[|sub| - 1] == xs[|xs| - 1] && Subsequence(sub[..|sub| - 1], xs[..|xs| - 1]))
  }

  /** A sequence is a subsequence of itself. */
  lemma {:induction false} SubsequenceRefl<T>(xs: seq<T>)
    ensures Subsequence(xs, xs)
    decreases |xs|
  {
    if xs != [] {
      SubsequenceRefl(xs[..|xs| - 1]);
    }
  }

  /** A filter keeps its input's order: the result is a subsequence. */
  lemma {:induction false} FilterSubsequence<T>(xs: seq<T>, p: T -> bool)
    ensures Subsequence(Filter(xs, p), xs)
    decreases |xs|
  {
    if xs != [] {
      var n := |xs| - 1;
      FilterSubsequence(xs[..n], p);
      var init := Filter(xs[..n], p);
      if p(xs[n]) {
        assert (init + [xs[n]])[..|init|] == init;
      }
    }
  }

  /** A filter that every element passes returns its input. */
  lemma {:induction false} FilterAll<T>(xs: seq<T>, p: T -> bool)
    requires forall x :: x in xs ==> p(x)
    ensures Filter(xs, p) == xs
    decreases |xs|
  {
    if xs != [] {
      var n := |xs| - 1;
      assert xs[n] in xs;
      assert forall x :: x in xs[..n] ==> x in xs;
      FilterAll(xs[..n], p);
      assert xs == xs[..n] + [xs[n]];
    }
  }

  /** A filter that no element passes returns nothing. */
  lemma {:induction false} FilterNone<T>(xs: seq<T>, p: T -> bool)
    requires forall x :: x in xs ==> !p(x)
    ensures Filter(xs, p) == []
    decreases |xs|
  {
    if xs != [] {
      var n := |xs| - 1;
      assert xs[n] in xs;
      assert forall x :: x in xs[..n] ==> x in xs;
      FilterNone(xs[..n], p);
    }
  }

  /** Filtering twice is filtering once by both conditions. */
  lemma {:induction false} FilterFilter<T>(xs: seq<T>, p: T -> bool, q: T -> bool)
    ensures Filter(Filter(xs, p), q) == Filter(xs, x => p(x) && q(x))
    decreases |xs|
  {
    if xs != [] {
      var n := |xs| - 1;
      FilterFilter(xs[..n], p, q);
      var init := Filter(xs[..n], p);
      if p(xs[n]) {
        assert (init + [xs[n]])[..|init|] == init;
      }
    }
  }

  /** Filters by equivalent conditions agree. */
  lemma {:induction false} FilterCongruent<T>(xs: seq<T>, p: T -> bool, q: T -> bool)
    requires forall x :: x in xs ==> (p(x) <==> q(x))
    ensures Filter(xs, p) == Filter(xs, q)
    decreases |xs|
  {
    if xs != [] {
      var n := |xs| - 1;
      assert xs[n] in xs;
      assert forall x :: x in xs[..n] ==> x in xs;
      FilterCongruent(xs[..n], p, q);
    }
  }

  /** Filtering by `p` and then by `q` is filtering once by any `r` that is their conjunction. */
  lemma {:induction false} FilterBoth<T>(xs: seq<T>, p: T -> bool, q: T -> bool, r: T -> bool)
    requires forall x :: x in xs ==> (r(x) <==> p(x) && q(x))
    ensures Filter(Filter(xs, p), q) == Filter(xs, r)
  {
    FilterFilter(xs, p, q);
    FilterCongruent(xs, x => p(x) && q(x), r);
  }

  /** A condition and its negation split the input: the two results together are as long as it. */
  lemma {:induction false} FilterSplit<T>(xs: seq<T>, p: T -> bool, q: T -> bool)
    requires forall i :: 0 <= i < |xs| ==> (p(xs[i]) <==> !q(xs[i]))
    ensures |Filter(xs, p)| + |Filter(xs, q)| == |xs|
    decreases |xs|
  {
    if xs != [] {
      var n := |xs| - 1;
      assert forall i :: 0 <= i < n ==> xs[..n][i] == xs[i];
      FilterSplit(xs[..n], p, q);
      assert |Filter(xs, p)| == |Filter(xs[..n], p)| + (if p(xs[n]) then 1 else 0);
      assert |Filter(xs, q)| == |Filter(xs[..n], q)| + (if q(xs[n]) then 1 else 0);
    }
  }
}
