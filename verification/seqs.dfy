/** Reductions and filters over sequences: the `Array.prototype.reduce` sums and
    `Array.prototype.filter` selections every screen of the dashboard uses. */
module Seqs {

  /** The mathematical sum of `f` over `xs` (reference definition). */
  function Sum<T>(xs: seq<T>, f: T -> real): real
    decreases |xs|
  {
    if |xs| == 0 then 0.0 else f(xs[0]) + Sum(xs[1..], f)
  }

  lemma {:induction false} SumSnoc<T>(xs: seq<T>, x: T, f: T -> real)
    ensures Sum(xs + [x], f) == Sum(xs, f) + f(x)
    decreases |xs|
  {
    if |xs| == 0 {
      assert xs + [x] == [x];
      assert [x][1..] == [];
    } else {
      assert (xs + [x])[1..] == xs[1..] + [x];
      SumSnoc(xs[1..], x, f);
    }
  }

  /** `xs.reduce((sum, x) => sum + f(x), 0)`: a left-to-right fold from 0,
      which computes the mathematical sum. */
  method Reduce<T>(xs: seq<T>, f: T -> real) returns (total: real)
    ensures total == Sum(xs, f)
  {
    total := 0.0;
    var i := 0;
    while i < |xs|
      invariant 0 <= i <= |xs|
      invariant total == Sum(xs[..i], f)
    {
      assert xs[..i + 1] == xs[..i] + [xs[i]];
      SumSnoc(xs[..i], xs[i], f);
      total := total + f(xs[i]);
      i := i + 1;
    }
    assert xs[..|xs|] == xs;
  }

  /** `xs.filter(p)`: the elements satisfying `p`, in their original order. */
  function Filter<T>(xs: seq<T>, p: T -> bool): (r: seq<T>)
    ensures |r| <= |xs|
    ensures forall i :: 0 <= i < |r| ==> p(r[i])
    ensures forall i :: 0 <= i < |r| ==> r[i] in xs
    ensures forall i :: 0 <= i < |xs| && p(xs[i]) ==> xs[i] in r
    decreases |xs|
  {
    if |xs| == 0 then []
    else (if p(xs[0]) then [xs[0]] else []) + Filter(xs[1..], p)
  }

  function Not<T>(p: T -> bool): T -> bool {
    x => !p(x)
  }

  function Either<T>(p: T -> bool, q: T -> bool): T -> bool {
    x => p(x) || q(x)
  }

  /** `xs` is an order-preserving merge of `a` and `b`: both are subsequences
      of `xs` and every position of `xs` is taken by exactly one of them. */
  predicate Interleaves<T(==)>(xs: seq<T>, a: seq<T>, b: seq<T>)
    decreases |xs|
  {
    if |xs| == 0 then a == [] && b == []
    else
      || (|a| > 0 && a[0] == xs[0] && Interleaves(xs[1..], a[1..], b))
      || (|b| > 0 && b[0] == xs[0] && Interleaves(xs[1..], a, b[1..]))
  }

  /** The two complementary filters split `xs` without losing, duplicating or
      reordering anything. */
  lemma {:induction false} FilterSplitInterleaves<T>(xs: seq<T>, p: T -> bool)
    ensures Interleaves(xs, Filter(xs, p), Filter(xs, Not(p)))
    decreases |xs|
  {
    if |xs| > 0 {
      FilterSplitInterleaves(xs[1..], p);
      if p(xs[0]) {
        assert Filter(xs, p) == [xs[0]] + Filter(xs[1..], p);
        assert Filter(xs, p)[1..] == Filter(xs[1..], p);
        assert Filter(xs, Not(p)) == Filter(xs[1..], Not(p));
      } else {
        assert Filter(xs, p) == Filter(xs[1..], p);
        assert Filter(xs, Not(p)) == [xs[0]] + Filter(xs[1..], Not(p));
        assert Filter(xs, Not(p))[1..] == Filter(xs[1..], Not(p));
      }
    }
  }

  /** A merge keeps every element with its multiplicity. */
  lemma {:induction false} InterleavesMultiset<T>(xs: seq<T>, a: seq<T>, b: seq<T>)
    requires Interleaves(xs, a, b)
    ensures multiset(xs) == multiset(a) + multiset(b)
    ensures |xs| == |a| + |b|
    decreases |xs|
  {
    if |xs| > 0 {
      assert xs == [xs[0]] + xs[1..];
      if |a| > 0 && a[0] == xs[0] && Interleaves(xs[1..], a[1..], b) {
        InterleavesMultiset(xs[1..], a[1..], b);
        assert a == [a[0]] + a[1..];
      } else {
        InterleavesMultiset(xs[1..], a, b[1..]);
        assert b == [b[0]] + b[1..];
      }
    }
  }

  /** Conversely, the complementary filters are the ONLY merge-split of `xs`
      whose left part satisfies `p` and whose right part does not. */
  lemma {:induction false} SplitIsFilter<T>(xs: seq<T>, a: seq<T>, b: seq<T>, p: T -> bool)
    requires Interleaves(xs, a, b)
    requires forall x :: x in a ==> p(x)
    requires forall x :: x in b ==> !p(x)
    ensures a == Filter(xs, p)
    ensures b == Filter(xs, Not(p))
    decreases |xs|
  {
    if |xs| > 0 {
      if |a| > 0 && a[0] == xs[0] && Interleaves(xs[1..], a[1..], b) {
        assert a[0] in a;
        assert forall x :: x in a[1..] ==> x in a;
        SplitIsFilter(xs[1..], a[1..], b, p);
        assert a == [a[0]] + a[1..];
      } else {
        assert b[0] in b;
        assert forall x :: x in b[1..] ==> x in b;
        SplitIsFilter(xs[1..], a, b[1..], p);
        assert b == [b[0]] + b[1..];
      }
    }
  }

  /** Counting two predicates that never hold together is counting their
      disjunction. */
  lemma {:induction false} FilterDisjointUnion<T>(xs: seq<T>, p: T -> bool, q: T -> bool)
    requires forall x :: x in xs ==> !(p(x) && q(x))
    ensures |Filter(xs, p)| + |Filter(xs, q)| == |Filter(xs, Either(p, q))|
    decreases |xs|
  {
    if |xs| > 0 {
      assert xs[0] in xs;
      assert forall x :: x in xs[1..] ==> x in xs;
      FilterDisjointUnion(xs[1..], p, q);
    }
  }

  /** A filter keeps everything exactly when every element passes it. */
  lemma {:induction false} FilterKeepsAll<T>(xs: seq<T>, p: T -> bool)
    ensures |Filter(xs, p)| == |xs| <==> forall x :: x in xs ==> p(x)
    decreases |xs|
  {
    if |xs| > 0 {
      FilterKeepsAll(xs[1..], p);
      assert forall x :: x in xs <==> x == xs[0] || x in xs[1..];
    }
  }

  /** `xs.filter(p).length`: never more than the list, and all of it exactly
      when every element passes. */
  function Count<T>(xs: seq<T>, p: T -> bool): (n: nat)
    ensures n <= |xs|
    ensures n == |xs| <==> forall x :: x in xs ==> p(x)
  {
    FilterKeepsAll(xs, p);
    |Filter(xs, p)|
  }
}
