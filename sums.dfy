/** Sums of an integer-valued function over a sequence, folded in sequence order. */
module Sums {

  /** The sum of `f` over `xs`, added from the first element to the last,
      the order in which a `foreach` loop accumulates it. */
  function SumBy<T>(xs: seq<T>, f: T -> int): int
  {
    if xs == [] then 0 else SumBy(xs[..|xs| - 1], f) + f(xs[|xs| - 1])
  }

  lemma SumBySingleton<T>(x: T, f: T -> int)
    ensures SumBy([x], f) == f(x)
  {
    assert [x][..0] == [];
  }

  /** Summing a concatenation is summing its parts. */
  lemma {:induction false} SumByAppend<T>(xs: seq<T>, ys: seq<T>, f: T -> int)
    ensures SumBy(xs + ys, f) == SumBy(xs, f) + SumBy(ys, f)
  {
    if ys == [] {
      assert xs + ys == xs;
    } else {
      var init := ys[..|ys| - 1];
      assert (xs + ys)[..|xs + ys| - 1] == xs + init;
      SumByAppend(xs, init, f);
    }
  }

  /** Taking one element out of a sequence takes it out of its multiset. */
  lemma MultisetOfRemoval<T>(ys: seq<T>, k: int)
    requires 0 <= k < |ys|
    ensures multiset(ys[..k] + ys[k + 1..]) == multiset(ys) - multiset{ys[k]}
  {
    assert ys == ys[..k] + [ys[k]] + ys[k + 1..];
  }

  /** Taking one element out of a sequence takes its value out of the sum. */
  lemma SumByRemoval<T>(ys: seq<T>, k: int, f: T -> int)
    requires 0 <= k < |ys|
    ensures SumBy(ys, f) == SumBy(ys[..k] + ys[k + 1..], f) + f(ys[k])
  {
    var before, x, after := ys[..k], ys[k], ys[k + 1..];
    assert ys == (before + [x]) + after;
    calc {
      SumBy(ys, f);
      { SumByAppend(before + [x], after, f); }
      SumBy(before + [x], f) + SumBy(after, f);
      { SumByAppend(before, [x], f); SumBySingleton(x, f); }
      SumBy(before, f) + f(x) + SumBy(after, f);
      { SumByAppend(before, after, f); }
      SumBy(before + after, f) + f(x);
    }
  }

  /** The sum does not depend on the order of the elements. */
  lemma {:induction false} SumByPermutation<T>(xs: seq<T>, ys: seq<T>, f: T -> int)
    requires multiset(xs) == multiset(ys)
    ensures SumBy(xs, f) == SumBy(ys, f)
  {
    if xs == [] {
      assert |ys| == |multiset(ys)| == 0;
    } else {
      var init, x := xs[..|xs| - 1], xs[|xs| - 1];
      assert xs == init + [x];
      assert multiset(init) == multiset(xs) - multiset{x};
      assert x in multiset(ys);
      var k :| 0 <= k < |ys| && ys[k] == x;
      MultisetOfRemoval(ys, k);
      SumByPermutation(init, ys[..k] + ys[k + 1..], f);
      SumByRemoval(ys, k, f);
    }
  }

  /** Elements on which `f` is zero add nothing. */
  lemma {:induction false} SumByAllZero<T>(xs: seq<T>, f: T -> int)
    requires forall i :: 0 <= i < |xs| ==> f(xs[i]) == 0
    ensures SumBy(xs, f) == 0
  {
    if xs != [] {
      SumByAllZero(xs[..|xs| - 1], f);
    }
  }
}
