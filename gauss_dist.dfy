/** The univariate Gaussian `vml_GaussDist`.

  `Fit` sets the mean to the average of the values and adds the squared
  deviations from that mean to the `fSigma` field before dividing by `n - 1`.
  The field is not reset first, so a fresh instance (whose field is 0) ends
  with the sample variance, and a refitted one with the old value added in.
  The mean of no values is `0 * Infinity`, JavaScript's `NaN`, written `None`.
  `fSigma` is an `Extended` number, since a division by `n - 1 = 0` makes it
  infinite or `NaN`. The constant pi, the square root and the exponential are
  parameters.
 */
module GaussDist {
  import opened Vectors
  import opened Wrappers

  /** `math.sum(lData) * (1.0 / lData.length)`: the mean of a non-empty list. */
  function Mean(xs: seq<real>): real
    requires xs != []
  {
    Scaled(Sum(xs), |xs|)
  }

  /** The sum of the squared deviations `(x_i - m)^2`, accumulated from the left. */
  function SqDev(xs: seq<real>, m: real): real
  {
    if xs == [] then 0.0 else SqDev(xs[..|xs| - 1], m) + Sq(xs[|xs| - 1] - m)
  }

  lemma {:induction false} SqDevNonNeg(xs: seq<real>, m: real)
    ensures SqDev(xs, m) >= 0.0
  {
    if xs != [] {
      SqDevNonNeg(xs[..|xs| - 1], m);
      SquarePositive(xs[|xs| - 1] - m);
    }
  }

  /** A JavaScript number: a real, one of the two infinities, or `NaN`. */
  datatype Extended = Finite(value: real) | PosInf | NegInf | NaN

  /** The `fSigma` that `Fit` leaves, from the value `prev` it had before. Adding the
      finite squared deviations leaves an infinite or `NaN` field as it is. The final
      factor `1 / (n - 1)` is `-1` for no value, and `Infinity` for one, which makes a
      non-zero sum infinite of its sign and a zero sum `NaN`. */
  function FittedSigma(xs: seq<real>, prev: Extended): (r: Extended)
    ensures |xs| >= 2 && prev.Finite? ==> r.Finite?
    ensures |xs| == 1 ==> !r.Finite?
  {
    match prev
    case NaN => NaN
    case PosInf => if |xs| == 0 then NegInf else PosInf
    case NegInf => if |xs| == 0 then PosInf else NegInf
    case Finite(v) =>
      if |xs| == 0 then Finite(v * -1.0)
      else
        var s := v + SqDev(xs, Mean(xs));
        if |xs| >= 2 then Finite(Scaled(s, |xs| - 1))
        else if s > 0.0 then PosInf
        else if s < 0.0 then NegInf
        else NaN
  }

  /** Refitting to a single value: its deviation from its own mean is 0, so the old
      `fSigma` times `Infinity` is left, infinite of its sign, or `NaN` when it was 0. */
  lemma OneValueRefit(x: real, prev: real)
    ensures FittedSigma([x], Finite(prev)) == (if prev > 0.0 then PosInf else if prev < 0.0 then NegInf else NaN)
  {
    assert [x][..0] == [];
    assert Sum([x]) == x;
    assert Mean([x]) == x;
    assert SqDev([x], x) == 0.0;
  }

  /** On a fresh instance, whose `fSigma` is 0, `Fit` of two or more values leaves the
      sample variance `sum (x - mean)^2 / (n - 1)`, which is never negative. */
  lemma FreshSigmaIsSampleVariance(xs: seq<real>)
    requires |xs| >= 2
    ensures FittedSigma(xs, Finite(0.0)) == Finite(SqDev(xs, Mean(xs)) / (|xs| - 1) as real)
    ensures FittedSigma(xs, Finite(0.0)).value >= 0.0
  {
    var d := SqDev(xs, Mean(xs));
    SqDevNonNeg(xs, Mean(xs));
    MulRecip(d, (|xs| - 1) as real);
    assert 0.0 + d == d;
  }

  /** A refit adds the old `fSigma` to the new squared deviations before dividing. */
  lemma RefitAccumulates(xs: seq<real>, prev: real)
    requires |xs| >= 2
    ensures FittedSigma(xs, Finite(prev)) == Finite((prev + SqDev(xs, Mean(xs))) / (|xs| - 1) as real)
  {
  }

  lemma MulRecip(s: real, k: real)
    requires k > 0.0 && s >= 0.0
    ensures s / k >= 0.0
  {
  }

  /** What the proofs assume of the exponential: positive and non-decreasing. */
  ghost predicate SoundExp(exp: real -> real)
  {
    (forall x: real {:trigger exp(x)} :: exp(x) > 0.0) &&
    (forall x: real, y: real {:trigger exp(x), exp(y)} :: x <= y ==> exp(x) <= exp(y))
  }

  /** A sigma for which `Prob` gives a number: positive, or `Infinity`. */
  predicate Usable(sigma: Extended)
  {
    sigma.PosInf? || (sigma.Finite? && sigma.value > 0.0)
  }

  /** The density `1 / sqrt(2 pi s) * exp(-((x - m)^2 / s))` of `Prob`. An infinite sigma
      gives `1 / Infinity * exp(-0)`, which is 0. It is `None` (`NaN`) when the mean is not
      a number, and when sigma is `NaN`, 0 (`Infinity * 0` or `Infinity * NaN`) or
      negative (the root of a negative number). */
  function Density(x: real, mean: Option<real>, sigma: Extended, pi: real, exp: real -> real, sqrt: real -> real): (r: Option<real>)
    ensures r.Some? ==> mean.Some? && Usable(sigma)
  {
    if mean.None? || !Usable(sigma) then None
    else if sigma.PosInf? then Some(0.0)
    else
      var root := sqrt(2.0 * pi * sigma.value);
      if root == 0.0 then None
      else Some(1.0 / root * exp(-1.0 * (Sq(x - mean.value) / sigma.value)))
  }

  /** With a sound square root and exponential the density is defined exactly for a
      numeric mean and a positive or infinite sigma; it is positive for a finite sigma
      and 0 for an infinite one. */
  lemma DensityDefined(x: real, mean: Option<real>, sigma: Extended, pi: real, exp: real -> real, sqrt: real -> real)
    ensures SoundExp(exp) && SoundSqrt(sqrt) && pi > 0.0 ==>
      var r := Density(x, mean, sigma, pi, exp, sqrt);
      (r.Some? <==> mean.Some? && Usable(sigma)) &&
      (r.Some? && sigma.Finite? ==> r.value > 0.0) &&
      (r.Some? && sigma.PosInf? ==> r.value == 0.0)
  {
    if SoundExp(exp) && SoundSqrt(sqrt) && pi > 0.0 && mean.Some? && sigma.Finite? && sigma.value > 0.0 {
      DensityPositive(x, mean.value, sigma.value, pi, exp, sqrt);
    }
  }

  /** A density with a positive sigma is positive. */
  lemma DensityPositive(x: real, m: real, s: real, pi: real, exp: real -> real, sqrt: real -> real)
    requires SoundExp(exp) && SoundSqrt(sqrt) && pi > 0.0 && s > 0.0
    ensures Density(x, Some(m), Finite(s), pi, exp, sqrt).Some?
    ensures Density(x, Some(m), Finite(s), pi, exp, sqrt).value > 0.0
  {
    var root := sqrt(2.0 * pi * s);
    assert 2.0 * pi * s > 0.0;
    assert Sq(root) == 2.0 * pi * s;
    assert root > 0.0;
    var e := exp(-1.0 * (Sq(x - m) / s));
    assert e > 0.0;
    assert 1.0 / root > 0.0;
  }

  /** The density is largest at the mean. */
  lemma DensityPeaksAtMean(x: real, m: real, s: real, pi: real, exp: real -> real, sqrt: real -> real)
    requires SoundExp(exp) && SoundSqrt(sqrt) && pi > 0.0 && s > 0.0
    ensures Density(x, Some(m), Finite(s), pi, exp, sqrt).value <= Density(m, Some(m), Finite(s), pi, exp, sqrt).value
  {
    var root := sqrt(2.0 * pi * s);
    assert 2.0 * pi * s > 0.0;
    assert Sq(root) == 2.0 * pi * s;
    assert root > 0.0;
    SquarePositive(x - m);
    assert Sq(m - m) == 0.0;
    var a := -1.0 * (Sq(x - m) / s);
    assert a <= 0.0;
    assert -1.0 * (Sq(m - m) / s) == 0.0;
    assert exp(a) <= exp(0.0);
    var c := 1.0 / root;
    assert c > 0.0;
    MulMono(exp(a), exp(0.0), c);
  }

  /** The exponent has no factor 2: at one standard deviation from the mean the
      density is `exp(-1)` times its peak, not `exp(-1/2)` times it. */
  lemma DensityAtOneSigma(m: real, s: real, sd: real, pi: real, exp: real -> real, sqrt: real -> real)
    requires SoundSqrt(sqrt) && pi > 0.0 && s > 0.0 && sd >= 0.0 && Sq(sd) == s
    ensures Density(m + sd, Some(m), Finite(s), pi, exp, sqrt).Some?
    ensures Density(m + sd, Some(m), Finite(s), pi, exp, sqrt).value * exp(0.0) ==
            Density(m, Some(m), Finite(s), pi, exp, sqrt).value * exp(-1.0)
  {
    var root := sqrt(2.0 * pi * s);
    assert 2.0 * pi * s > 0.0;
    assert Sq(root) == 2.0 * pi * s;
    assert root > 0.0;
    assert m + sd - m == sd;
    assert -1.0 * (Sq(m + sd - m) / s) == -1.0;
    assert Sq(m - m) == 0.0;
    assert -1.0 * (Sq(m - m) / s) == 0.0;
  }

  class Gauss {
    var mean: Option<real>
    var sigma: Extended

    /** A fresh distribution: mean 0 and `fSigma` 0. */
    constructor()
      ensures mean == Some(0.0) && sigma == Finite(0.0)
    {
      mean := Some(0.0);
      sigma := Finite(0.0);
    }

    /** `Fit(lData)`: the mean of the values (`NaN` for none), and `fSigma` accumulated
        from its previous value as `FittedSigma` states. */
    method Fit(xs: seq<real>)
      modifies this
      ensures mean == (if xs == [] then None else Some(Mean(xs)))
      ensures sigma == FittedSigma(xs, old(sigma))
    {
      var m := if |xs| == 0 then None else Some(Scaled(Sum(xs), |xs|));
      var sg := sigma;
      if sg.Finite? {
        var s := sg.value;
        var i := 0;
        while i != |xs|
          invariant 0 <= i <= |xs|
          invariant i == 0 ==> s == sg.value
          invariant xs != [] ==> s == sg.value + SqDev(xs[..i], m.value)
        {
          assert xs[..i + 1][..i] == xs[..i];
          s := s + Sq(xs[i] - m.value);
          i := i + 1;
        }
        assert xs[..|xs|] == xs;
        // fSigma *= 1.0 / (lData.length - 1)
        if |xs| == 0 {
          sg := Finite(s * -1.0);
        } else if |xs| >= 2 {
          sg := Finite(Scaled(s, |xs| - 1));
        } else if s > 0.0 {
          sg := PosInf;
        } else if s < 0.0 {
          sg := NegInf;
        } else {
          sg := NaN;
        }
      } else if |xs| == 0 {
        // an infinity times -1 changes sign; NaN stays NaN
        sg := if sg.PosInf? then NegInf else if sg.NegInf? then PosInf else NaN;
      }
      mean, sigma := m, sg;
    }

    /** `Prob(vecPoint)`: the density at a value. With a sound exponential and square
        root it is a number exactly for a numeric mean and a positive or infinite
        sigma, positive for a finite sigma and 0 for an infinite one. */
    function Prob(x: real, pi: real, exp: real -> real, sqrt: real -> real): (r: Option<real>)
      reads this
      ensures r.Some? ==> mean.Some? && Usable(sigma)
      ensures SoundExp(exp) && SoundSqrt(sqrt) && pi > 0.0 ==>
        (r.Some? <==> mean.Some? && Usable(sigma)) &&
        (r.Some? && sigma.Finite? ==> r.value > 0.0) &&
        (r.Some? && sigma.PosInf? ==> r.value == 0.0)
    {
      DensityDefined(x, mean, sigma, pi, exp, sqrt);
      Density(x, mean, sigma, pi, exp, sqrt)
    }
  }
}
