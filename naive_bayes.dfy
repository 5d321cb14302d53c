/** The two-class Gaussian naive Bayes classifier `vml_NaiveBayes`.

  `Fit` builds, for each class, one fresh `GaussDist.Gauss` per coordinate from
  columns 0 and 1 of that class's points (two distributions whatever
  `iNumFeatures` says). `Predict` multiplies the fixed prior 0.5 by the density
  of each coordinate and normalises the two class scores. A `None` stands for
  JavaScript's `NaN`, which spreads through every product and sum.
 */
module NaiveBayes {
  import opened Vectors
  import opened Wrappers
  import opened GaussDist

  /** Every point has the two coordinates `Fit` reads. */
  predicate Planar(ps: seq<Vector>)
  {
    forall i :: 0 <= i < |ps| ==> |ps[i]| >= 2
  }

  /** Coordinate `k` of every point, in order: the feature lists `Fit` pushes. */
  function Column(ps: seq<Vector>, k: nat): (r: seq<real>)
    requires forall i :: 0 <= i < |ps| ==> k < |ps[i]|
    ensures |r| == |ps| && forall i :: 0 <= i < |ps| ==> r[i] == ps[i][k]
  {
    seq(|ps|, i requires 0 <= i < |ps| => ps[i][k])
  }

  /** The product of two numbers, `NaN` when either is. */
  function Mul(a: Option<real>, b: Option<real>): Option<real>
  {
    if a.None? || b.None? then None else Some(a.value * b.value)
  }

  /** `prior * ps[0] * ps[1] * ...`, multiplied from the left as `fA *= ...` does. */
  function Score(prior: real, ps: seq<Option<real>>): Option<real>
  {
    if ps == [] then Some(prior) else Mul(Score(prior, ps[..|ps| - 1]), ps[|ps| - 1])
  }

  /** A score is a number exactly when every factor is, and then it is positive when
      the prior and every factor are. */
  lemma {:induction false} ScorePositive(prior: real, ps: seq<Option<real>>)
    requires prior > 0.0 && forall i :: 0 <= i < |ps| ==> ps[i].Some? && ps[i].value > 0.0
    ensures Score(prior, ps).Some? && Score(prior, ps).value > 0.0
  {
    if ps != [] {
      ScorePositive(prior, ps[..|ps| - 1]);
      var a, b := Score(prior, ps[..|ps| - 1]).value, ps[|ps| - 1].value;
      assert a * b > 0.0;
    }
  }

  /** `[fA / (fA + fB), fB / (fA + fB)]`, or `None` when that is `[NaN, NaN]`: when
      either score is `NaN` or both add up to 0. */
  function Normalise(fa: Option<real>, fb: Option<real>): (r: Option<seq<real>>)
    ensures r.Some? ==> |r.value| == 2
  {
    if fa.None? || fb.None? || fa.value + fb.value == 0.0 then None
    else Some([fa.value / (fa.value + fb.value), fb.value / (fa.value + fb.value)])
  }

  /** Two non-negative scores with a positive sum normalise to two values in `[0, 1]`
      that add up to 1. */
  lemma NormaliseIsDistribution(a: real, b: real)
    requires a >= 0.0 && b >= 0.0 && a + b > 0.0
    ensures Normalise(Some(a), Some(b)).Some?
    ensures var r := Normalise(Some(a), Some(b)).value;
      0.0 <= r[0] <= 1.0 && 0.0 <= r[1] <= 1.0 && r[0] + r[1] == 1.0
  {
    var s := a + b;
    assert a / s + b / s == (a + b) / s;
    assert a / s <= 1.0 by {
      assert a <= s;
    }
    assert b / s <= 1.0 by {
      assert b <= s;
    }
  }

  /** The class with the larger score gets the larger share. */
  lemma NormaliseOrder(a: real, b: real)
    requires a >= 0.0 && b >= 0.0 && a + b > 0.0
    ensures Normalise(Some(a), Some(b)).Some?
    ensures a > b <==> Normalise(Some(a), Some(b)).value[0] > Normalise(Some(a), Some(b)).value[1]
  {
    var s := a + b;
    assert a / s - b / s == (a - b) / s;
    if a > b {
      assert (a - b) / s > 0.0;
    } else {
      assert (a - b) / s <= 0.0;
    }
  }

  /** The densities `ds[i].Prob(p[i])` of the coordinates of a point. */
  function Densities(ds: seq<Gauss>, p: Vector, pi: real, exp: real -> real, sqrt: real -> real): (r: seq<Option<real>>)
    requires |p| >= |ds|
    reads ds
    ensures |r| == |ds|
  {
    seq(|ds|, i requires 0 <= i < |ds| reads ds => ds[i].Prob(p[i], pi, exp, sqrt))
  }

  /** What `Predict` returns once fitted. */
  function Posterior(da: seq<Gauss>, db: seq<Gauss>, p: Vector, pi: real, exp: real -> real, sqrt: real -> real): (r: Option<seq<real>>)
    requires |da| == |db| && |p| >= |da|
    reads da, db
  {
    Normalise(Score(0.5, Densities(da, p, pi, exp, sqrt)), Score(0.5, Densities(db, p, pi, exp, sqrt)))
  }

  /** A distribution whose mean is a number and whose sigma is positive. */
  ghost predicate Proper(g: Gauss)
    reads g
  {
    g.mean.Some? && g.sigma.Finite? && g.sigma.value > 0.0
  }

  /** With proper distributions and a sound exponential and square root, `Predict`
      gives two values in `[0, 1]` that add up to 1. */
  lemma PosteriorIsDistribution(da: seq<Gauss>, db: seq<Gauss>, p: Vector, pi: real, exp: real -> real, sqrt: real -> real)
    requires |da| == |db| && |p| >= |da| && SoundExp(exp) && SoundSqrt(sqrt) && pi > 0.0
    requires forall i :: 0 <= i < |da| ==> Proper(da[i]) && Proper(db[i])
    ensures Posterior(da, db, p, pi, exp, sqrt).Some?
    ensures var r := Posterior(da, db, p, pi, exp, sqrt).value;
      0.0 <= r[0] <= 1.0 && 0.0 <= r[1] <= 1.0 && r[0] + r[1] == 1.0
  {
    var qa, qb := Densities(da, p, pi, exp, sqrt), Densities(db, p, pi, exp, sqrt);
    forall i | 0 <= i < |da|
      ensures qa[i].Some? && qa[i].value > 0.0 && qb[i].Some? && qb[i].value > 0.0
    {
      assert qa[i] == da[i].Prob(p[i], pi, exp, sqrt);
      assert qb[i] == db[i].Prob(p[i], pi, exp, sqrt);
    }
    ScorePositive(0.5, qa);
    ScorePositive(0.5, qb);
    NormaliseIsDistribution(Score(0.5, qa).value, Score(0.5, qb).value);
  }

  /** `g` holds what a fresh distribution holds after `Fit(xs)`. */
  ghost predicate Fitted(g: Gauss, xs: seq<real>)
    reads g
  {
    g.mean == (if xs == [] then None else Some(Mean(xs))) && g.sigma == FittedSigma(xs, Finite(0.0))
  }

  /** The loops of `Fit` that push coordinates 0 and 1 of every point. */
  method Features(ps: seq<Vector>) returns (xs: seq<real>, ys: seq<real>)
    requires Planar(ps)
    ensures xs == Column(ps, 0) && ys == Column(ps, 1)
  {
    xs, ys := [], [];
    var i := 0;
    while i != |ps|
      invariant 0 <= i <= |ps|
      invariant xs == Column(ps[..i], 0) && ys == Column(ps[..i], 1)
    {
      xs := xs + [ps[i][0]];
      ys := ys + [ps[i][1]];
      i := i + 1;
    }
    assert ps[..|ps|] == ps;
  }

  /** `new vml_GaussDist()` followed by its `Fit`. */
  method FitFresh(xs: seq<real>) returns (g: Gauss)
    ensures fresh(g) && Fitted(g, xs)
  {
    g := new Gauss();
    g.Fit(xs);
  }

  class NaiveBayesModel {
    var ready: bool
    var distA: seq<Gauss>
    var distB: seq<Gauss>
    var probA: real
    var probB: real

    /** The priors stay 0.5 and 0.5; once fitted there are two distributions per class. */
    ghost predicate Valid()
      reads this
    {
      probA == 0.5 && probB == 0.5 && (ready ==> |distA| == 2 && |distB| == 2)
    }

    /** Not ready, no distribution (`lProbDistA` is not defined) and priors 0.5 and 0.5. */
    constructor()
      ensures Valid() && !ready && distA == [] && distB == []
      ensures probA == 0.5 && probB == 0.5
    {
      ready := false;
      distA := [];
      distB := [];
      probA := 0.5;
      probB := 0.5;
    }

    /** `IsReady()`. */
    function IsReady(): (r: bool)
      reads this
      ensures r <==> ready
    {
      ready
    }

    /** `Fit(lClassA, lClassB, iNumFeatures)`: for each class, a fresh distribution fitted
        to column 0 and one fitted to column 1; then the model is ready. The number of
        features is never read. */
    method Fit(a: seq<Vector>, b: seq<Vector>, numFeatures: Option<nat>)
      requires Valid() && Planar(a) && Planar(b)
      modifies this
      ensures Valid() && ready
      ensures fresh(distA[0]) && fresh(distA[1]) && fresh(distB[0]) && fresh(distB[1])
      ensures Fitted(distA[0], Column(a, 0)) && Fitted(distA[1], Column(a, 1))
      ensures Fitted(distB[0], Column(b, 0)) && Fitted(distB[1], Column(b, 1))
    {
      var xa, ya := Features(a);
      var xb, yb := Features(b);
      var gxa := FitFresh(xa);
      var gya := FitFresh(ya);
      var gxb := FitFresh(xb);
      var gyb := FitFresh(yb);
      distA := [gxa, gya];
      distB := [gxb, gyb];
      ready := true;
    }

    /** `Predict(vecPoint)`: `Err` before `Fit` (reading the length of the undefined
        `lProbDistA` throws); afterwards the normalised scores `Posterior`. */
    method Predict(p: Vector, pi: real, exp: real -> real, sqrt: real -> real) returns (r: Result<Option<seq<real>>>)
      requires Valid() && |p| >= 2
      ensures r.Err? <==> !ready
      ensures r.Ok? ==> r.value == Posterior(distA, distB, p, pi, exp, sqrt)
    {
      if !ready {
        return Err("TypeError: lProbDistA is undefined");
      }
      var fa := Some(probA);
      var fb := Some(probB);
      var pa := Densities(distA, p, pi, exp, sqrt);
      var pb := Densities(distB, p, pi, exp, sqrt);
      var i := 0;
      while i != |distA|
        invariant 0 <= i <= |distA|
        invariant fa == Score(probA, pa[..i]) && fb == Score(probB, pb[..i])
      {
        assert pa[..i + 1][..i] == pa[..i] && pb[..i + 1][..i] == pb[..i];
        assert Score(probA, pa[..i + 1]) == Mul(Score(probA, pa[..i]), pa[i]);
        assert Score(probB, pb[..i + 1]) == Mul(Score(probB, pb[..i]), pb[i]);
        fa := Mul(fa, pa[i]);
        fb := Mul(fb, pb[i]);
        i := i + 1;
      }
      assert pa[..|distA|] == pa && pb[..|distB|] == pb;
      return Ok(Normalise(fa, fb));
    }
  }
}
