/** The reductions the scorers share: the sum of a list of numbers
    (`reduce((acc, val) => acc + val, 0)`), its mean, and the population
    standard deviation. */
module Stats {

  /** Left-to-right sum, as `reduce` with initial value 0 adds. */
  function Sum(xs: seq<real>): real {
    if |xs| == 0 then 0.0 else Sum(xs[..|xs| - 1]) + xs[|xs| - 1]
  }

  /** `average(values)`: 0 for an empty list, otherwise sum / length. */
  function Average(xs: seq<real>): real {
    if |xs| == 0 then 0.0 else Sum(xs) / |xs| as real
  }

  lemma {:induction false} SumAppend(xs: seq<real>, x: real)
    ensures Sum(xs + [x]) == Sum(xs) + x
  {
    assert (xs + [x])[..|xs|] == xs;
  }

  /** Every bound on the elements bounds the sum by length times the bound. */
  lemma {:induction false} SumBounds(xs: seq<real>, lo: real, hi: real)
    requires forall i :: 0 <= i < |xs| ==> lo <= xs[i] <= hi
    ensures |xs| as real * lo <= Sum(xs) <= |xs| as real * hi
  {
    if |xs| > 0 {
      SumBounds(xs[..|xs| - 1], lo, hi);
    }
  }

  /** A lower bound on the elements bounds the sum from below. */
  lemma {:induction false} SumAtLeast(xs: seq<real>, lo: real)
    requires forall i :: 0 <= i < |xs| ==> lo <= xs[i]
    ensures |xs| as real * lo <= Sum(xs)
  {
    if |xs| > 0 {
      SumAtLeast(xs[..|xs| - 1], lo);
    }
  }

  /** The mean of a non-empty list is at least any lower bound of its elements. */
  lemma AverageAtLeast(xs: seq<real>, lo: real)
    requires |xs| > 0
    requires forall i :: 0 <= i < |xs| ==> lo <= xs[i]
    ensures lo <= Average(xs)
  {
    SumAtLeast(xs, lo);
    var n := |xs| as real;
    assert Sum(xs) / n * n == Sum(xs);
  }

  /** The mean of a non-empty list lies between any bounds of its elements. */
  lemma AverageBounds(xs: seq<real>, lo: real, hi: real)
    requires |xs| > 0
    requires forall i :: 0 <= i < |xs| ==> lo <= xs[i] <= hi
    ensures lo <= Average(xs) <= hi
  {
    SumBounds(xs, lo, hi);
    var n := |xs| as real;
    assert Sum(xs) / n >= lo by {
      assert Sum(xs) / n * n == Sum(xs);
    }
    assert Sum(xs) / n <= hi by {
      assert Sum(xs) / n * n == Sum(xs);
    }
  }

  /** The mean of a list whose elements all equal `c` is `c`. */
  /** The mean of two numbers is their midpoint. */
  lemma AveragePair(xs: seq<real>)
    requires |xs| == 2
    ensures Average(xs) == (xs[0] + xs[1]) / 2.0
  {
    assert xs[..1][..0] == [];
    assert Sum(xs[..1]) == xs[0];
    assert Sum(xs) == xs[0] + xs[1];
  }

  lemma AverageConstant(xs: seq<real>, c: real)
    requires |xs| > 0
    requires forall i :: 0 <= i < |xs| ==> xs[i] == c
    ensures Average(xs) == c
  {
    AverageBounds(xs, c, c);
  }

  /** Σ (x − mean)², from left to right. */
  function SquaredDeviations(xs: seq<real>, mean: real): real {
    if |xs| == 0 then 0.0
    else SquaredDeviations(xs[..|xs| - 1], mean) + (xs[|xs| - 1] - mean) * (xs[|xs| - 1] - mean)
  }

  /** Population variance; 0 for an empty list. */
  function Variance(xs: seq<real>): real {
    if |xs| == 0 then 0.0 else SquaredDeviations(xs, Average(xs)) / |xs| as real
  }

  lemma {:induction false} SquaredDeviationsNonnegative(xs: seq<real>, mean: real)
    ensures SquaredDeviations(xs, mean) >= 0.0
  {
    if |xs| > 0 {
      var d := xs[|xs| - 1] - mean;
      SquaredDeviationsNonnegative(xs[..|xs| - 1], mean);
      assert d * d >= 0.0;
    }
  }

  /** A list whose elements all equal the mean has no squared deviation. */
  lemma {:induction false} SquaredDeviationsConstant(xs: seq<real>, c: real)
    requires forall i :: 0 <= i < |xs| ==> xs[i] == c
    ensures SquaredDeviations(xs, c) == 0.0
  {
    if |xs| > 0 {
      SquaredDeviationsConstant(xs[..|xs| - 1], c);
    }
  }

  lemma VarianceNonnegative(xs: seq<real>)
    ensures Variance(xs) >= 0.0
  {
    if |xs| > 0 {
      SquaredDeviationsNonnegative(xs, Average(xs));
    }
  }

  /** A square-root function: what `Math.sqrt` computes on non-negative
      numbers, a non-negative number whose square is the argument; `Math.sqrt(0)`
      is 0. */
  ghost predicate IsSqrt(sqrt: real -> real) {
    && sqrt(0.0) == 0.0
    && forall x :: x >= 0.0 ==> sqrt(x) >= 0.0 && sqrt(x) * sqrt(x) == x
  }

  /** `standardDeviation(values)`: 0 for an empty list, otherwise the
      non-negative square root of the population variance. */
  function StandardDeviation(xs: seq<real>, sqrt: real -> real): (r: real)
    requires IsSqrt(sqrt)
    ensures r >= 0.0 && r * r == Variance(xs)
    ensures |xs| == 0 ==> r == 0.0
  {
    if |xs| == 0 then 0.0
    else
      VarianceNonnegative(xs);
      sqrt(Variance(xs))
  }

  /** A constant list has no spread. */
  lemma StandardDeviationConstant(xs: seq<real>, c: real, sqrt: real -> real)
    requires IsSqrt(sqrt)
    requires forall i :: 0 <= i < |xs| ==> xs[i] == c
    ensures StandardDeviation(xs, sqrt) == 0.0
  {
    if |xs| > 0 {
      AverageConstant(xs, c);
      SquaredDeviationsConstant(xs, c);
    }
  }
}
