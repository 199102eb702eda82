/** Exact (real-valued) counterparts of the numpy statistics the analyzer
    uses: `np.mean`, `np.var` with and without Bessel's correction, and the
    standardisation `(x - mu) / sigma`. The square root behind `np.std` is
    not computed: a standard deviation is any `sigma >= 0` whose square is
    the population variance (see `IsPopStd`). */
module Statistics {

  /** The identity. It carries no meaning for the model: `Sq(x)` is plain
      `x * x`, written as `x * Id(x)` only so that the solver reads a square
      as a product of two terms, about which its arithmetic reasons well,
      where it gives up on some facts about a term times itself. */
  function Id(x: real): real { x }

  /** `x` squared, that is `x * x`. */
  function Sq(x: real): real { x * Id(x) }

  /** A square is never negative, and is positive away from zero. */
  lemma SqSign(x: real)
    ensures Sq(x) >= 0.0
    ensures x != 0.0 ==> Sq(x) > 0.0
  {
    if x > 0.0 {
      assert x * Id(x) > 0.0;
    } else if x < 0.0 {
      assert (-x) * (-Id(x)) > 0.0;
    }
  }

  /** Squaring is monotone on the non-negative reals. */
  lemma SqMonotone(a: real, b: real)
    ensures 0.0 <= a <= b ==> Sq(a) <= Sq(b)
  {
    if 0.0 <= a <= b {
      assert a * Id(a) <= b * Id(a);
      assert b * Id(a) <= b * Id(b);
    }
  }

  function Sum(xs: seq<real>): real
  {
    if |xs| == 0 then 0.0 else xs[0] + Sum(xs[1..])
  }

  /** Arithmetic mean; the empty window is given mean 0 (numpy yields NaN,
      but no caller of the model reads the mean of an empty window). */
  function Mean(xs: seq<real>): (m: real)
    ensures |xs| == 0 ==> m == 0.0
  {
    if |xs| == 0 then 0.0 else Sum(xs) / (|xs| as real)
  }

  /** The mean of a non-empty window lies between its smallest and its
      largest element: some element is at or below it, some at or above. */
  lemma MeanWithinRange(xs: seq<real>)
    requires |xs| > 0
    ensures exists i :: 0 <= i < |xs| && xs[i] <= Mean(xs)
    ensures exists j :: 0 <= j < |xs| && Mean(xs) <= xs[j]
  {
    var n, m := |xs| as real, Mean(xs);
    assert m * n == Sum(xs);
    if forall i :: 0 <= i < |xs| ==> xs[i] > m {
      SumExceeds(xs, m);
      assert false;
    }
    if forall j :: 0 <= j < |xs| ==> xs[j] < m {
      SumFallsShort(xs, m);
      assert false;
    }
  }

  /** Elements all above `c` sum to more than `n·c`. */
  lemma {:induction false} SumExceeds(xs: seq<real>, c: real)
    requires |xs| > 0 && forall i :: 0 <= i < |xs| ==> xs[i] > c
    ensures Sum(xs) > c * (|xs| as real)
    decreases |xs|
  {
    if |xs| > 1 {
      SumExceeds(xs[1..], c);
    }
  }

  /** Elements all below `c` sum to less than `n·c`. */
  lemma {:induction false} SumFallsShort(xs: seq<real>, c: real)
    requires |xs| > 0 && forall i :: 0 <= i < |xs| ==> xs[i] < c
    ensures Sum(xs) < c * (|xs| as real)
    decreases |xs|
  {
    if |xs| > 1 {
      SumFallsShort(xs[1..], c);
    }
  }

  /** Sum of squared deviations from `m`. */
  function SumSqDev(xs: seq<real>, m: real): (r: real)
    ensures r >= 0.0
  {
    if |xs| == 0 then 0.0
    else
      SqSign(xs[0] - m);
      Sq(xs[0] - m) + SumSqDev(xs[1..], m)
  }

  /** `np.var(xs)`: population variance (divisor n). */
  function PopVariance(xs: seq<real>): (r: real)
    ensures r >= 0.0
  {
    if |xs| == 0 then 0.0 else SumSqDev(xs, Mean(xs)) / (|xs| as real)
  }

  /** `np.var(xs, ddof=1)`: Bessel-corrected sample variance (divisor n - 1). */
  function SampleVariance(xs: seq<real>): (r: real)
    requires |xs| >= 2
    ensures r >= 0.0
  {
    SumSqDev(xs, Mean(xs)) / ((|xs| - 1) as real)
  }

  /** Bessel's correction only enlarges: the sample variance is never below
      the population variance, and the two are zero together. */
  lemma SampleVarianceBounds(xs: seq<real>)
    requires |xs| >= 2
    ensures SampleVariance(xs) >= PopVariance(xs)
    ensures SampleVariance(xs) == 0.0 <==> PopVariance(xs) == 0.0
  {
    FewerParts(SumSqDev(xs, Mean(xs)), (|xs| - 1) as real, |xs| as real);
  }

  /** Sharing a non-negative total among fewer parts gives larger parts, and
      both shares are zero together. */
  lemma FewerParts(total: real, a: real, b: real)
    requires total >= 0.0 && 0.0 < a <= b
    ensures total / a >= total / b
    ensures total / a == 0.0 <==> total / b == 0.0
  {
  }

  /** `sigma` is `np.std(xs)`: the non-negative square root of the
      population variance. */
  predicate IsPopStd(xs: seq<real>, sigma: real)
  {
    sigma >= 0.0 && Sq(sigma) == PopVariance(xs)
  }

  /** The divisor the analyzer standardises with: the standard deviation,
      or 1.0 when it is zero (`sigma if sigma > 0 else 1.0`). */
  function SafeSigma(sigma: real): (r: real)
    ensures r > 0.0
    ensures sigma > 0.0 ==> r == sigma
    ensures sigma <= 0.0 ==> r == 1.0
  {
    if sigma > 0.0 then sigma else 1.0
  }

  /** The standardised increments `(x - mu) / s` of a window. */
  function Standardize(xs: seq<real>, mu: real, s: real): (zs: seq<real>)
    requires s > 0.0
    ensures |zs| == |xs|
    ensures forall i :: 0 <= i < |xs| ==> zs[i] * s == xs[i] - mu
  {
    seq(|xs|, i requires 0 <= i < |xs| => (xs[i] - mu) / s)
  }

  /** Every element of `xs` is the same value. */
  predicate Constant(xs: seq<real>)
  {
    forall i, j :: 0 <= i < |xs| && 0 <= j < |xs| ==> xs[i] == xs[j]
  }

  lemma {:induction false} SumOfConstant(xs: seq<real>, c: real)
    requires forall i :: 0 <= i < |xs| ==> xs[i] == c
    ensures Sum(xs) == (|xs| as real) * c
    decreases |xs|
  {
    if |xs| > 0 {
      SumOfConstant(xs[1..], c);
    }
  }

  lemma {:induction false} SumConcat(a: seq<real>, b: seq<real>)
    ensures Sum(a + b) == Sum(a) + Sum(b)
    decreases |a|
  {
    if |a| == 0 {
      assert a + b == b;
    } else {
      assert (a + b)[1..] == a[1..] + b;
      SumConcat(a[1..], b);
    }
  }

  lemma {:induction false} SumSqDevOfConstant(xs: seq<real>, c: real, m: real)
    requires forall i :: 0 <= i < |xs| ==> xs[i] == c
    ensures SumSqDev(xs, m) == (|xs| as real) * Sq(c - m)
    decreases |xs|
  {
    if |xs| > 0 {
      SumSqDevOfConstant(xs[1..], c, m);
    }
  }

  lemma {:induction false} SumSqDevConcat(a: seq<real>, b: seq<real>, m: real)
    ensures SumSqDev(a + b, m) == SumSqDev(a, m) + SumSqDev(b, m)
    decreases |a|
  {
    if |a| == 0 {
      assert a + b == b;
    } else {
      assert (a + b)[1..] == a[1..] + b;
      SumSqDevConcat(a[1..], b, m);
    }
  }

  /** The squared deviations from `m` sum to zero exactly when every
      element equals `m`. */
  lemma {:induction false} SumSqDevZeroIff(xs: seq<real>, m: real)
    ensures SumSqDev(xs, m) == 0.0 <==> forall i :: 0 <= i < |xs| ==> xs[i] == m
    decreases |xs|
  {
    if |xs| > 0 {
      SumSqDevZeroIff(xs[1..], m);
      if SumSqDev(xs, m) == 0.0 {
        SqSign(xs[0] - m);
        forall i | 0 <= i < |xs|
          ensures xs[i] == m
        {
          if i > 0 {
            assert xs[i] == xs[1..][i - 1];
          }
        }
      }
      if forall i :: 0 <= i < |xs| ==> xs[i] == m {
        assert forall i :: 0 <= i < |xs| - 1 ==> xs[1..][i] == m by {
          forall i | 0 <= i < |xs| - 1 ensures xs[1..][i] == m {
            assert xs[1..][i] == xs[i + 1];
          }
        }
      }
    }
  }

  /** The mean of a non-empty constant window is its value. */
  lemma MeanOfConstant(xs: seq<real>)
    requires |xs| > 0 && Constant(xs)
    ensures Mean(xs) == xs[0]
  {
    SumOfConstant(xs, xs[0]);
  }

  /** A window has zero population variance exactly when it is constant. */
  lemma PopVarianceZeroIff(xs: seq<real>)
    ensures PopVariance(xs) == 0.0 <==> Constant(xs)
  {
    if |xs| > 0 {
      SumSqDevZeroIff(xs, Mean(xs));
      if Constant(xs) {
        MeanOfConstant(xs);
      }
    }
  }

  /** A window of at least two points has zero sample variance exactly when
      it is constant. */
  lemma SampleVarianceZeroIff(xs: seq<real>)
    requires |xs| >= 2
    ensures SampleVariance(xs) == 0.0 <==> Constant(xs)
  {
    SumSqDevZeroIff(xs, Mean(xs));
    if Constant(xs) {
      MeanOfConstant(xs);
    }
  }

  /** A constant window has standard deviation zero, and every price in it
      standardises to zero. */
  lemma ConstantStandardizesToZero(xs: seq<real>, sigma: real)
    requires Constant(xs) && IsPopStd(xs, sigma)
    ensures sigma == 0.0
    ensures forall i :: 0 <= i < |xs| ==>
      Standardize(xs, Mean(xs), SafeSigma(sigma))[i] == 0.0
  {
    PopVarianceZeroIff(xs);
    SqSign(sigma);
    if |xs| > 0 {
      MeanOfConstant(xs);
    }
  }
}
