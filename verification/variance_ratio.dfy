/** The volatility-regime test of `variance_ratio_test`: an F-test on the
    Bessel-corrected variances of two halves of a window, folded into a
    two-sided p-value, failing open to 1.0. The F distribution's cumulative
    distribution function (`scipy.stats.f.cdf`) is a parameter. */
module VarianceRatio {
  import opened Common
  import opened Statistics

  /** What evaluating the F distribution's CDF produced: a value, or an
      exception. */
  datatype CdfOutcome = Value(p: real) | Raised

  /** `scipy.stats.f.cdf(f, dfn, dfd)`. */
  type FCdf = (real, int, int) -> CdfOutcome

  /** The F statistic and the degrees of freedom passed with it. */
  datatype FRatio = FRatio(f: real, dfn: int, dfd: int)

  /** The F statistic of two halves: the larger sample variance over the
      smaller, with degrees of freedom `(len(w2) - 1, len(w1) - 1)`; `None`
      is the degenerate case where a half has zero variance, which happens
      exactly when that half is constant. */
  function Ratio(w1: seq<real>, w2: seq<real>): (r: Option<FRatio>)
    requires |w1| >= 2 && |w2| >= 2
    ensures r.None? <==> Constant(w1) || Constant(w2)
    ensures r.Some? ==> r.value.f >= 1.0
    ensures r.Some? ==> r.value.dfn == |w2| - 1 && r.value.dfd == |w1| - 1
    ensures r.Some? && SampleVariance(w2) >= SampleVariance(w1) ==>
      r.value.f * SampleVariance(w1) == SampleVariance(w2)
    ensures r.Some? && SampleVariance(w1) >= SampleVariance(w2) ==>
      r.value.f * SampleVariance(w2) == SampleVariance(w1)
  {
    var v1 := SampleVariance(w1);
    var v2 := SampleVariance(w2);
    SampleVarianceZeroIff(w1);
    SampleVarianceZeroIff(w2);
    if v1 == 0.0 || v2 == 0.0 then None
    else Some(FRatio(if v2 > v1 then v2 / v1 else v1 / v2, |w2| - 1, |w1| - 1))
  }

  /** `2 * min(p, 1 - p)`: the two-sided p-value of a one-sided tail
      probability. */
  function TwoSided(p: real): (r: real)
    ensures 0.0 <= p <= 1.0 ==> 0.0 <= r <= 1.0
    ensures p <= 0.5 ==> r == 2.0 * p
    ensures p >= 0.5 ==> r == 2.0 * (1.0 - p)
  {
    2.0 * (if p <= 1.0 - p then p else 1.0 - p)
  }

  /** The fold does not care which tail the probability was measured in. */
  lemma TwoSidedSymmetric(p: real)
    ensures TwoSided(p) == TwoSided(1.0 - p)
  {
  }

  /** The CDF evaluation the test makes, if it gets that far. */
  function CdfCall(w1: seq<real>, w2: seq<real>, cdf: FCdf): Option<CdfOutcome>
    requires |w1| >= 2 && |w2| >= 2
  {
    match Ratio(w1, w2)
    case None => None
    case Some(fr) => Some(cdf(fr.f, fr.dfn, fr.dfd))
  }

  /** `variance_ratio_test(w1, w2)`. A constant half gives exactly 1.0, so
      does a CDF that raises; a CDF value `p` gives the fold `2·min(p, 1-p)`,
      which is a probability whenever `p` is one. */
  function Test(w1: seq<real>, w2: seq<real>, cdf: FCdf): (pval: real)
    requires |w1| >= 2 && |w2| >= 2
    ensures Constant(w1) || Constant(w2) ==> pval == 1.0
    ensures CdfCall(w1, w2, cdf) == Some(Raised) ==> pval == 1.0
    ensures (forall p :: CdfCall(w1, w2, cdf) == Some(Value(p)) ==> 0.0 <= p <= 1.0) ==>
      0.0 <= pval <= 1.0
    ensures forall p :: CdfCall(w1, w2, cdf) == Some(Value(p)) ==> pval == TwoSided(p)
    ensures pval != 1.0 ==> exists p :: CdfCall(w1, w2, cdf) == Some(Value(p)) && pval == TwoSided(p)
  {
    match Ratio(w1, w2)
    case None => 1.0
    case Some(fr) =>
      match cdf(fr.f, fr.dfn, fr.dfd)
      case Raised => 1.0
      case Value(p) => TwoSided(p)
  }

  /** Swapping the halves keeps the F statistic and swaps the degrees of
      freedom. */
  lemma RatioSwap(w1: seq<real>, w2: seq<real>)
    requires |w1| >= 2 && |w2| >= 2
    ensures Ratio(w1, w2).None? <==> Ratio(w2, w1).None?
    ensures Ratio(w1, w2).Some? ==>
      Ratio(w2, w1) == Some(FRatio(Ratio(w1, w2).value.f, |w1| - 1, |w2| - 1))
  {
  }

  /** For halves of equal length the test is symmetric: only which half is
      more volatile matters, not which half came first. */
  lemma SwapSymmetric(w1: seq<real>, w2: seq<real>, cdf: FCdf)
    requires |w1| >= 2 && |w1| == |w2|
    ensures Test(w1, w2, cdf) == Test(w2, w1, cdf)
  {
    RatioSwap(w1, w2);
  }

  /** For halves of different lengths the symmetry fails: the degrees of
      freedom follow the halves' positions while the statistic follows
      their variances, so swapping the halves asks the CDF a different
      question. A window of odd length is split this way. */
  lemma SwapAsymmetricForUnequalHalves()
    ensures var w1 := [0.0, 1.0, 0.0, 1.0, 0.0, 1.0];
            var w2 := [0.0, 1.0, 0.0, 1.0, 0.0, 1.0, 0.0];
            var cdf: FCdf := (f, dfn, dfd) => if dfn == 6 then Value(0.5) else Value(0.999);
            Test(w1, w2, cdf) != Test(w2, w1, cdf)
  {
    var w1 := [0.0, 1.0, 0.0, 1.0, 0.0, 1.0];
    var w2 := [0.0, 1.0, 0.0, 1.0, 0.0, 1.0, 0.0];
    assert w1[0] != w1[1] && w2[0] != w2[1];
    assert !Constant(w1) && !Constant(w2);
  }
}
