/**
 * The integer arithmetic the page performs on score lists: the `reduce` that
 * sums them, `Math.round(sum / n)`, and `Math.min(...)` / `Math.max(...)` over
 * a spread list.  Scores are whole numbers, so everything is over `int`.
 */
module Statistics {

  /** Reference definition of the sum of a list. */
  function Sum(xs: seq<int>): int
  {
    if xs == [] then 0 else xs[0] + Sum(xs[1..])
  }

  /** `xs.map(f)`. */
  function Mapped<T>(xs: seq<T>, f: T -> int): (r: seq<int>)
    ensures |r| == |xs|
    ensures forall i :: 0 <= i < |xs| ==> r[i] == f(xs[i])
  {
    if xs == [] then [] else [f(xs[0])] + Mapped(xs[1..], f)
  }

  /** `xs.reduce((sum, x) => sum + f(x), acc)`: a left fold with an accumulator. */
  function ReduceSum<T>(xs: seq<T>, f: T -> int, acc: int): (r: int)
    ensures r == acc + Sum(Mapped(xs, f))
  {
    if xs == [] then acc else ReduceSum(xs[1..], f, acc + f(xs[0]))
  }

  /**
   * `r` is `total / n` rounded to the nearest integer, halves upward:
   * r - 1/2 <= total / n < r + 1/2, stated without fractions.
   */
  predicate IsRoundedMean(r: int, total: int, n: int)
  {
    n > 0 && 2 * (n * r) - n <= 2 * total < 2 * (n * r) + n
  }

  /** `Math.round(total / n)` for a positive count `n`. */
  function RoundDiv(total: int, n: int): (r: int)
    requires n > 0
    ensures IsRoundedMean(r, total, n)
  {
    var q := (2 * total + n) / (2 * n);
    assert 2 * total + n == 2 * (n * q) + (2 * total + n) % (2 * n);
    q
  }

  /** At most one integer is the rounded mean, so the predicate determines `RoundDiv`. */
  lemma RoundedMeanUnique(r: int, r': int, total: int, n: int)
    requires IsRoundedMean(r, total, n) && IsRoundedMean(r', total, n)
    ensures r == r'
  {
    assert n * (r' + 1) == n * r' + n;
    MulCancel(n, r, r' + 1);
    assert n * (r + 1) == n * r + n;
    MulCancel(n, r', r + 1);
  }

  lemma MulMonotone(n: int, a: int, b: int)
    requires n > 0 && a <= b
    ensures n * a <= n * b
  {
    assert n * b - n * a == n * (b - a);
  }

  lemma MulCancel(n: int, a: int, b: int)
    requires n > 0 && n * a < n * b
    ensures a < b
  {
    if a >= b {
      MulMonotone(n, b, a);
      assert false;
    }
  }

  /** `Math.min(...xs)` for a non-empty list. */
  function Minimum(xs: seq<int>): (m: int)
    requires |xs| > 0
    ensures m in xs
    ensures forall i :: 0 <= i < |xs| ==> m <= xs[i]
  {
    if |xs| == 1 then xs[0]
    else
      var rest := Minimum(xs[1..]);
      if xs[0] <= rest then xs[0] else rest
  }

  /** `Math.max(...xs)` for a non-empty list. */
  function Maximum(xs: seq<int>): (m: int)
    requires |xs| > 0
    ensures m in xs
    ensures forall i :: 0 <= i < |xs| ==> xs[i] <= m
  {
    if |xs| == 1 then xs[0]
    else
      var rest := Maximum(xs[1..]);
      if xs[0] >= rest then xs[0] else rest
  }

  /** A list whose elements lie in [lo, hi] sums to between n*lo and n*hi. */
  lemma {:induction false} SumBounds(xs: seq<int>, lo: int, hi: int)
    requires forall i :: 0 <= i < |xs| ==> lo <= xs[i] <= hi
    ensures |xs| * lo <= Sum(xs) <= |xs| * hi
  {
    if xs != [] {
      SumBounds(xs[1..], lo, hi);
      assert |xs| * lo == lo + (|xs| - 1) * lo;
      assert |xs| * hi == hi + (|xs| - 1) * hi;
    }
  }

  /** A rounded mean of values in [lo, hi] is again in [lo, hi]. */
  lemma RoundedMeanBetween(r: int, total: int, n: int, lo: int, hi: int)
    requires IsRoundedMean(r, total, n)
    requires n * lo <= total <= n * hi
    ensures lo <= r <= hi
  {
    assert n * (r + 1) == n * r + n;
    MulCancel(n, lo, r + 1);
    assert n * (r - 1) == n * r - n;
    MulCancel(n, r - 1, hi);
  }

  /** The rounded mean of a non-empty list lies between its minimum and maximum. */
  lemma MeanWithinRange(xs: seq<int>)
    requires |xs| > 0
    ensures Minimum(xs) <= RoundDiv(Sum(xs), |xs|) <= Maximum(xs)
  {
    SumBounds(xs, Minimum(xs), Maximum(xs));
    RoundedMeanBetween(RoundDiv(Sum(xs), |xs|), Sum(xs), |xs|, Minimum(xs), Maximum(xs));
  }

  /** On a one-element list minimum, maximum and rounded mean are that element. */
  lemma SingletonStatistics(x: int)
    ensures Minimum([x]) == Maximum([x]) == RoundDiv(Sum([x]), 1) == x
  {
    assert Sum([x]) == x + Sum([]);
    RoundedMeanUnique(RoundDiv(Sum([x]), 1), x, x, 1);
  }

  lemma {:induction false} SumConcat(a: seq<int>, b: seq<int>)
    ensures Sum(a + b) == Sum(a) + Sum(b)
  {
    if a == [] {
      assert a + b == b;
    } else {
      assert (a + b)[1..] == a[1..] + b;
      SumConcat(a[1..], b);
    }
  }

  lemma {:induction false} MappedConcat<T>(a: seq<T>, b: seq<T>, f: T -> int)
    ensures Mapped(a + b, f) == Mapped(a, f) + Mapped(b, f)
  {
  }

  /** Summing `f` over a list does not depend on the order of the list. */
  lemma {:induction false} SumMappedPermutation<T>(xs: seq<T>, ys: seq<T>, f: T -> int)
    requires multiset(xs) == multiset(ys)
    ensures Sum(Mapped(xs, f)) == Sum(Mapped(ys, f))
    decreases |xs|
  {
    if xs == [] {
      assert |ys| == |multiset(ys)| == 0;
    } else {
      var x := xs[0];
      assert x in multiset(ys);
      var i :| 0 <= i < |ys| && ys[i] == x;
      var rest := ys[..i] + ys[i + 1..];
      assert ys == ys[..i] + [x] + ys[i + 1..];
      assert xs == [x] + xs[1..];
      calc {
        multiset{x} + multiset(xs[1..]);
        multiset([x] + xs[1..]);
        multiset(ys);
        multiset(ys[..i] + [x]) + multiset(ys[i + 1..]);
        multiset{x} + multiset(rest);
      }
      assert multiset(xs[1..]) == (multiset{x} + multiset(xs[1..])) - multiset{x};
      assert multiset(rest) == (multiset{x} + multiset(rest)) - multiset{x};
      SumMappedPermutation(xs[1..], rest, f);
      MappedConcat(ys[..i] + [x], ys[i + 1..], f);
      MappedConcat(ys[..i], [x], f);
      MappedConcat(ys[..i], ys[i + 1..], f);
      SumConcat(Mapped(ys[..i], f) + Mapped([x], f), Mapped(ys[i + 1..], f));
      SumConcat(Mapped(ys[..i], f), Mapped([x], f));
      SumConcat(Mapped(ys[..i], f), Mapped(ys[i + 1..], f));
    }
  }
}
