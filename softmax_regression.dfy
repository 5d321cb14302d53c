/** Softmax regression `vml_SoftmaxRegression` (logistic regression for two classes).

  The model keeps `iNumClasses - 1` weight vectors. A point's score for vector `i`
  is `exp(-w_i . x)`. With several vectors the scores are divided by their sum,
  so the last class gets no entry. With a single vector the result is the
  logistic pair `[1 / (1 + s), 1 - 1 / (1 + s)]`. One training step first
  predicts every sample with the current weights and only then moves each weight
  vector along its gradient, optionally clipped. The exponential, the logarithm,
  the square root and the random initial weights are parameters. A `None`
  stands for JavaScript's `NaN` or `Infinity`.
 */
module SoftmaxRegression {
  import opened Vectors
  import opened VmlMath
  import opened Wrappers
  import Utils

  /** What the proofs assume of the exponential: it is positive. */
  ghost predicate PositiveExp(exp: real -> real)
  {
    forall x: real {:trigger exp(x)} :: exp(x) > 0.0
  }

  /** Every weight vector has the point's length. */
  ghost predicate Fits(params: seq<Vector>, x: Vector)
  {
    forall i :: 0 <= i < |params| ==> |params[i]| == |x|
  }

  /** The scores `exp(-1 * (w_i . x))`. */
  function Scores(params: seq<Vector>, x: Vector, exp: real -> real): (r: seq<real>)
    requires Fits(params, x)
    ensures |r| == |params|
  {
    seq(|params|, i requires 0 <= i < |params| => exp(-1.0 * Dot(params[i], x)))
  }

  /** What `Predict(x)` returns: for several weight vectors the scores normalised, for
      one the logistic pair, for none `[NaN, NaN]` (`None`). */
  function Prediction(params: seq<Vector>, x: Vector, exp: real -> real): (r: Option<seq<real>>)
    requires Fits(params, x)
    ensures r.Some? ==> |params| >= 1 && |r.value| == PredictionLength(params)
  {
    var s := Scores(params, x, exp);
    if |params| > 1 then Normalised(s)
    else if |params| == 1 then Logistic(s[0])
    else None
  }

  /** How many entries `Predict(x)` has: one per weight vector when there are several,
      otherwise the two of the logistic pair (`[NaN, NaN]` without any weight vector). */
  function PredictionLength(params: seq<Vector>): nat
  {
    if |params| > 1 then |params| else 2
  }

  /** The scores times the reciprocal of their sum; `NaN` when the sum is 0. */
  function Normalised(s: seq<real>): (r: Option<seq<real>>)
    ensures r.Some? ==> |r.value| == |s|
  {
    var norm := Sum(s);
    if norm == 0.0 then None else Some(Scale(s, 1.0 / norm))
  }

  /** `[1 / (1 + s), 1 - 1 / (1 + s)]`; `NaN` when `1 + s` is 0. */
  function Logistic(s: real): (r: Option<seq<real>>)
    ensures r.Some? ==> |r.value| == 2
  {
    if 1.0 + s == 0.0 then None
    else
      var p := 1.0 / (1.0 + s);
      Some([p, 1.0 - p])
  }

  lemma {:induction false} SumPositive(v: seq<real>)
    requires v != [] && forall i :: 0 <= i < |v| ==> v[i] > 0.0
    ensures Sum(v) > 0.0
  {
    if |v| > 1 {
      SumPositive(v[..|v| - 1]);
    }
  }

  /** With a positive exponential and at least one weight vector the prediction is
      defined, every entry is positive, and the entries add up to 1. */
  lemma PredictionIsDistribution(params: seq<Vector>, x: Vector, exp: real -> real)
    requires Fits(params, x) && PositiveExp(exp) && |params| >= 1
    ensures Prediction(params, x, exp).Some?
    ensures var r := Prediction(params, x, exp).value;
      Sum(r) == 1.0 && forall i :: 0 <= i < |r| ==> r[i] > 0.0
  {
    var s := Scores(params, x, exp);
    assert forall i :: 0 <= i < |s| ==> s[i] > 0.0;
    if |params| > 1 {
      NormalisedDistribution(s);
    } else {
      LogisticDistribution(s[0]);
    }
  }

  /** Positive scores, normalised, are positive and add up to 1. */
  lemma NormalisedDistribution(s: seq<real>)
    requires s != [] && forall i :: 0 <= i < |s| ==> s[i] > 0.0
    ensures Normalised(s).Some?
    ensures var r := Normalised(s).value;
      Sum(r) == 1.0 && forall i :: 0 <= i < |r| ==> r[i] > 0.0
  {
    SumPositive(s);
    var norm := Sum(s);
    SumScale(s, 1.0 / norm);
    assert (1.0 / norm) * norm == 1.0;
    var r := Scale(s, 1.0 / norm);
    forall i | 0 <= i < |s|
      ensures r[i] > 0.0
    {
      assert s[i] * (1.0 / norm) > 0.0;
    }
  }

  /** The logistic pair of a positive score is positive and adds up to 1. */
  lemma LogisticDistribution(s: real)
    requires s > 0.0
    ensures Logistic(s).Some?
    ensures var r := Logistic(s).value;
      Sum(r) == 1.0 && forall i :: 0 <= i < |r| ==> r[i] > 0.0
  {
    var p := 1.0 / (1.0 + s);
    assert 0.0 < p < 1.0;
    var r := [p, 1.0 - p];
    assert Sum([p]) == p by {
      assert [p][..0] == [];
    }
    assert r[..1] == [p];
    assert Sum(r) == Sum([p]) + (1.0 - p);
  }

  /** With one weight vector the first class has the probability `1 / (1 + exp(-w . x))`,
      which exceeds one half exactly when the score `w . x` is positive (for an
      increasing exponential with `exp(0) == 1`). */
  lemma LogisticHalf(w: Vector, x: Vector, exp: real -> real)
    requires |w| == |x| && PositiveExp(exp) && exp(0.0) == 1.0
    requires forall a: real, b: real {:trigger exp(a), exp(b)} :: a < b ==> exp(a) < exp(b)
    ensures Prediction([w], x, exp).Some?
    ensures Prediction([w], x, exp).value[0] > 0.5 <==> Dot(w, x) > 0.0
  {
    BelowOne(Dot(w, x), exp);
    LogisticHalfAt(w, x, exp);
  }

  lemma LogisticHalfAt(w: Vector, x: Vector, exp: real -> real)
    requires |w| == |x| && PositiveExp(exp)
    requires exp(-1.0 * Dot(w, x)) < 1.0 <==> Dot(w, x) > 0.0
    ensures Prediction([w], x, exp).Some?
    ensures Prediction([w], x, exp).value[0] > 0.5 <==> Dot(w, x) > 0.0
  {
    var s := exp(-1.0 * Dot(w, x));
    SingleScore(w, x, exp);
    HalfIff(s);
  }

  /** With one weight vector the prediction is the logistic pair of its score. */
  lemma SingleScore(w: Vector, x: Vector, exp: real -> real)
    requires |w| == |x|
    ensures Prediction([w], x, exp) == Logistic(exp(-1.0 * Dot(w, x)))
  {
    assert Scores([w], x, exp)[0] == exp(-1.0 * Dot(w, x));
  }

  /** For an increasing exponential with `exp(0) == 1`: `exp(-d) < 1` exactly when `d > 0`. */
  lemma BelowOne(d: real, exp: real -> real)
    requires exp(0.0) == 1.0
    requires forall a: real, b: real {:trigger exp(a), exp(b)} :: a < b ==> exp(a) < exp(b)
    ensures exp(-1.0 * d) < 1.0 <==> d > 0.0
  {
    if d > 0.0 {
      assert -1.0 * d < 0.0;
    } else if d < 0.0 {
      assert 0.0 < -1.0 * d;
    } else {
      assert -1.0 * d == 0.0;
    }
  }

  lemma HalfIff(s: real)
    requires s > 0.0
    ensures Logistic(s).Some? && (Logistic(s).value[0] > 0.5 <==> s < 1.0)
  {
    var p := 1.0 / (1.0 + s);
    assert Logistic(s).value[0] == p;
    assert p * (1.0 + s) == 1.0;
    if s < 1.0 {
      assert 0.5 * (1.0 + s) < 1.0;
    } else {
      assert 0.5 * (1.0 + s) >= 1.0;
    }
  }

  /** The predictions every sample gets from the same (pre-step) weights. */
  function Predictions(params: seq<Vector>, data: seq<Vector>, exp: real -> real): (r: seq<Option<seq<real>>>)
    requires forall j :: 0 <= j < |data| ==> Fits(params, data[j])
    ensures |r| == |data|
  {
    seq(|data|, j requires 0 <= j < |data| => Prediction(params, data[j], exp))
  }

  /** Every prediction is defined and has an entry for each of `k > 0` weight vectors. */
  ghost predicate Covers(preds: seq<Option<seq<real>>>, k: nat)
  {
    k > 0 ==> forall j :: 0 <= j < |preds| ==> preds[j].Some? && |preds[j].value| >= k
  }

  /** The gradient terms `x_j * (1 - p_ji)` for a sample of class `i` and `x_j * (0 - p_ji)`
      for the others. */
  function GradTerms(data: seq<Vector>, labels: seq<nat>, preds: seq<Option<seq<real>>>, i: nat): (r: seq<Vector>)
    requires |labels| == |data| && |preds| == |data| && Covers(preds, i + 1)
    ensures |r| == |data| && forall j :: 0 <= j < |r| ==> |r[j]| == |data[j]|
  {
    seq(|data|, j requires 0 <= j < |data| =>
      if i == labels[j] then Scale(data[j], 1.0 - preds[j].value[i]) else Scale(data[j], 0.0 - preds[j].value[i]))
  }

  /** The raw gradient of weight vector `i`: the terms summed and scaled by `-1 / n`, plus
      `fL2` times the weights. */
  function Gradient(params: seq<Vector>, data: seq<Vector>, labels: seq<nat>, preds: seq<Option<seq<real>>>, i: nat, l2: real): (r: Vector)
    requires i < |params| && data != [] && |labels| == |data| && |preds| == |data| && Covers(preds, i + 1)
    requires forall j :: 0 <= j < |data| ==> |data[j]| == |params[i]|
    ensures |r| == |params[i]|
  {
    Add(Scale(VecSum(GradTerms(data, labels, preds, i)), -1.0 / |data| as real), Scale(params[i], l2))
  }

  /** The gradient applied: clipped only when clipping is asked for. */
  function Applied(g: Vector, clip: bool, threshold: real, sqrt: real -> real): (r: Vector)
    requires clip ==> Norm(g, sqrt) > threshold ==> Norm(g, sqrt) != 0.0
    ensures |r| == |g|
    ensures !clip ==> r == g
  {
    if clip then Utils.GradientClipping(g, threshold, sqrt) else g
  }

  /** The shape every training step relies on: `k` weight vectors, one label per sample
      and every sample and weight vector of length `dim`. */
  ghost predicate Shaped(params: seq<Vector>, data: seq<Vector>, labels: seq<nat>, dim: nat)
  {
    |labels| == |data| &&
    (forall i :: 0 <= i < |params| ==> |params[i]| == dim) &&
    (forall j :: 0 <= j < |data| ==> |data[j]| == dim)
  }

  /** Weight vector `i` after one `TrainStep`, from the predictions `preds` of the old weights. */
  function NewParam(params: seq<Vector>, data: seq<Vector>, labels: seq<nat>, preds: seq<Option<seq<real>>>, i: nat,
                    lambda: real, l2: real, clip: bool, threshold: real, sqrt: real -> real): (r: Vector)
    requires i < |params| && data != [] && |labels| == |data| && |preds| == |data| && Covers(preds, i + 1)
    requires forall j :: 0 <= j < |data| ==> |data[j]| == |params[i]|
    requires clip ==> threshold >= 0.0 && SoundSqrt(sqrt)
    ensures |r| == |params[i]|
  {
    var g := Gradient(params, data, labels, preds, i, l2);
    NormNonNeg(g, sqrt);
    Sub(params[i], Scale(Applied(g, clip, threshold, sqrt), lambda))
  }

  lemma NormNonNeg(g: Vector, sqrt: real -> real)
    ensures SoundSqrt(sqrt) ==> Norm(g, sqrt) >= 0.0
  {
    SumSqNonNeg(g);
  }

  /** All weight vectors after one `TrainStep`. */
  function Stepped(params: seq<Vector>, data: seq<Vector>, labels: seq<nat>, dim: nat, exp: real -> real,
                   lambda: real, l2: real, clip: bool, threshold: real, sqrt: real -> real): (r: seq<Vector>)
    requires Shaped(params, data, labels, dim) && data != [] && PositiveExp(exp)
    requires clip ==> threshold >= 0.0 && SoundSqrt(sqrt)
    ensures |r| == |params|
  {
    var preds := Predictions(params, data, exp);
    PredictionsCover(params, data, dim, exp);
    seq(|params|, i requires 0 <= i < |params| => NewParam(params, data, labels, preds, i, lambda, l2, clip, threshold, sqrt))
  }

  lemma PredictionsCover(params: seq<Vector>, data: seq<Vector>, dim: nat, exp: real -> real)
    requires (forall i :: 0 <= i < |params| ==> |params[i]| == dim) && (forall j :: 0 <= j < |data| ==> |data[j]| == dim)
    requires PositiveExp(exp)
    ensures Covers(Predictions(params, data, exp), |params|)
  {
    if |params| >= 1 {
      var preds := Predictions(params, data, exp);
      forall j | 0 <= j < |data|
        ensures preds[j].Some? && |preds[j].value| >= |params|
      {
        assert preds[j] == Prediction(params, data[j], exp);
        PredictionIsDistribution(params, data[j], exp);
      }
    }
  }

  /** With clipping on, every weight vector moves by at most `lambda` times the threshold. */
  lemma ClippedStepBounded(params: seq<Vector>, data: seq<Vector>, labels: seq<nat>, preds: seq<Option<seq<real>>>, i: nat,
                           lambda: real, l2: real, threshold: real, sqrt: real -> real)
    requires i < |params| && data != [] && |labels| == |data| && |preds| == |data| && Covers(preds, i + 1)
    requires forall j :: 0 <= j < |data| ==> |data[j]| == |params[i]|
    requires threshold >= 0.0 && SoundSqrt(sqrt)
    ensures Norm(Applied(Gradient(params, data, labels, preds, i, l2), true, threshold, sqrt), sqrt) <= threshold
  {
    var g := Gradient(params, data, labels, preds, i, l2);
    NormNonNeg(g, sqrt);
    if Norm(g, sqrt) > threshold {
      Utils.ClippedNorm(g, threshold, sqrt);
    }
  }

  /** The log-likelihood terms `log(Predict(x_i)[t_i])`, summed from the left. A label
      with no entry in its prediction hands `undefined` to `math.log`, which throws;
      otherwise the sum is `NaN` as soon as a prediction is. */
  function LogLik(params: seq<Vector>, data: seq<Vector>, labels: seq<nat>, n: nat, exp: real -> real, log: real -> real): Result<Option<real>>
    requires n <= |data| && |labels| == |data| && forall j :: 0 <= j < |data| ==> Fits(params, data[j])
  {
    if n == 0 then Ok(Some(0.0))
    else
      LogStep(LogLik(params, data, labels, n - 1, exp, log), Prediction(params, data[n - 1], exp),
              PredictionLength(params), labels[n - 1], log)
  }

  /** One term `log(p[t])` added to the sum so far, for a prediction of `len` entries:
      a throw stays a throw, a label `t >= len` throws, and the sum is `NaN` when either
      it or the prediction is. */
  function LogStep(prev: Result<Option<real>>, p: Option<seq<real>>, len: nat, t: nat, log: real -> real): Result<Option<real>>
    requires p.Some? ==> |p.value| == len
  {
    if prev.Err? then prev
    else if t >= len then Err(LogOfUndefined)
    else if prev.value.None? || p.None? then Ok(None)
    else Ok(Some(prev.value.value + log(p.value[t])))
  }

  /** The log-likelihood throws exactly when some label has no entry in the predictions:
      with several weight vectors, any label of the last class. */
  lemma {:induction false} LogLikThrowsIff(params: seq<Vector>, data: seq<Vector>, labels: seq<nat>, n: nat, exp: real -> real, log: real -> real)
    requires n <= |data| && |labels| == |data| && forall j :: 0 <= j < |data| ==> Fits(params, data[j])
    ensures LogLik(params, data, labels, n, exp, log).Err? <==> exists j :: 0 <= j < n && labels[j] >= PredictionLength(params)
    ensures LogLik(params, data, labels, n, exp, log).Err? ==> LogLik(params, data, labels, n, exp, log).error == LogOfUndefined
  {
    if n > 0 {
      LogLikThrowsIff(params, data, labels, n - 1, exp, log);
      if labels[n - 1] >= PredictionLength(params) {
        assert exists j :: 0 <= j < n && labels[j] >= PredictionLength(params);
      }
    }
  }

  /** With several weight vectors a sample of the last class, `numClasses - 1`, makes the
      log-likelihood throw. */
  lemma LastClassThrows(params: seq<Vector>, data: seq<Vector>, labels: seq<nat>, exp: real -> real, log: real -> real, j: nat)
    requires |labels| == |data| && forall k :: 0 <= k < |data| ==> Fits(params, data[k])
    requires |params| >= 2 && j < |data| && labels[j] == |params|
    ensures LogLik(params, data, labels, |data|, exp, log) == Err(LogOfUndefined)
  {
    LogLikThrowsIff(params, data, labels, |data|, exp, log);
    assert labels[j] >= PredictionLength(params);
  }

  /** One more sample adds its term to the sum of the samples before it. */
  lemma LogLikNext(params: seq<Vector>, data: seq<Vector>, labels: seq<nat>, i: nat, exp: real -> real, log: real -> real)
    requires i < |data| && |labels| == |data| && forall j :: 0 <= j < |data| ==> Fits(params, data[j])
    ensures LogLik(params, data, labels, i + 1, exp, log) ==
      LogStep(LogLik(params, data, labels, i, exp, log), Prediction(params, data[i], exp), PredictionLength(params), labels[i], log)
  {
  }

  /** Once the sum has thrown, the remaining samples leave the throw as it is. */
  lemma {:induction false} LogLikErrSticks(params: seq<Vector>, data: seq<Vector>, labels: seq<nat>, i: nat, n: nat, exp: real -> real, log: real -> real)
    requires i <= n <= |data| && |labels| == |data| && forall j :: 0 <= j < |data| ==> Fits(params, data[j])
    requires LogLik(params, data, labels, i, exp, log).Err?
    ensures LogLik(params, data, labels, n, exp, log) == LogLik(params, data, labels, i, exp, log)
    decreases n - i
  {
    if n > i {
      LogLikErrSticks(params, data, labels, i, n - 1, exp, log);
    }
  }

  /** With a positive exponential, at least two weight vectors and every label naming
      one of them, the log-likelihood is a number. */
  lemma {:induction false} LogLikDefined(params: seq<Vector>, data: seq<Vector>, labels: seq<nat>, n: nat, exp: real -> real, log: real -> real)
    requires n <= |data| && |labels| == |data| && forall j :: 0 <= j < |data| ==> Fits(params, data[j])
    requires PositiveExp(exp) && |params| >= 2 && forall j :: 0 <= j < |labels| ==> labels[j] < |params|
    ensures LogLik(params, data, labels, n, exp, log).Ok? && LogLik(params, data, labels, n, exp, log).value.Some?
  {
    if n > 0 {
      LogLikDefined(params, data, labels, n - 1, exp, log);
      PredictionIsDistribution(params, data[n - 1], exp);
    }
  }

  /** The point must have the weights' length for `math.dot`. The loops of `Predict`:
      push every score and add it to the norm, then scale the list in place. */
  method PredictWith(params: seq<Vector>, x: Vector, exp: real -> real) returns (r: Option<seq<real>>)
    requires Fits(params, x)
    ensures r == Prediction(params, x, exp)
  {
    ghost var s := Scores(params, x, exp);
    var result: seq<real> := [];
    var norm := 0.0;
    var i := 0;
    while i != |params|
      invariant 0 <= i <= |params|
      invariant result == s[..i] && norm == Sum(s[..i])
    {
      assert s[..i + 1][..i] == s[..i];
      var score := exp(-1.0 * Dot(params[i], x));
      result := result + [score];
      norm := norm + score;
      i := i + 1;
    }
    assert s[..|params|] == s;
    if |params| > 1 {
      assert Prediction(params, x, exp) == Normalised(s);
      if norm == 0.0 {
        return None;
      }
      result := ScaleAll(result, 1.0 / norm);
      return Some(result);
    } else if |params| == 1 {
      if 1.0 + result[0] == 0.0 {
        return None;
      }
      var p := 1.0 / (1.0 + result[0]);
      return Some([p, 1.0 - p]);
    }
    return None;
  }

  /** The second loop of `Predict`: every entry multiplied by `c`, in place. */
  method ScaleAll(s: seq<real>, c: real) returns (r: seq<real>)
    ensures r == Scale(s, c)
  {
    r := s;
    for i := 0 to |r|
      invariant |r| == |s|
      invariant forall k :: 0 <= k < i ==> r[k] == s[k] * c
      invariant forall k :: i <= k < |r| ==> r[k] == s[k]
    {
      r := r[i := r[i] * c];
    }
    assert forall k :: 0 <= k < |r| ==> r[k] == Scale(s, c)[k];
  }

  /** The outer loop of `TrainStep` over the samples: the gradient terms of weight vector `i`
      added up, starting from the first. */
  method SumTerms(data: seq<Vector>, labels: seq<nat>, preds: seq<Option<seq<real>>>, i: nat, dim: nat) returns (g: Vector)
    requires data != [] && |labels| == |data| && |preds| == |data| && Covers(preds, i + 1)
    requires forall j :: 0 <= j < |data| ==> |data[j]| == dim
    ensures g == VecSum(GradTerms(data, labels, preds, i))
  {
    ghost var terms := GradTerms(data, labels, preds, i);
    var j := 0;
    g := [];
    while j != |data|
      invariant 0 <= j <= |data|
      invariant j > 0 ==> g == VecSum(terms[..j])
    {
      var tmp;
      if i == labels[j] {
        tmp := Scale(data[j], 1.0 - preds[j].value[i]);
      } else {
        tmp := Scale(data[j], 0.0 - preds[j].value[i]);
      }
      if j == 0 {
        assert terms[..1] == [terms[0]];
        g := tmp;
      } else {
        assert terms[..j + 1][..j] == terms[..j];
        g := Add(g, tmp);
      }
      j := j + 1;
    }
    assert terms[..|data|] == terms;
  }

  class SoftmaxModel {
    var data: seq<Vector>
    var labels: seq<nat>
    var numClasses: nat
    var params: seq<Vector>
    var dim: nat
    var ready: bool

    /** `iNumClasses - 1` weight vectors; every sample and weight vector of length `iDim`. */
    ghost predicate Valid()
      reads this
    {
      numClasses >= 1 && |params| == numClasses - 1 && Shaped(params, data, labels, dim)
    }

    /** Empty and not ready. */
    constructor()
      ensures data == [] && labels == [] && numClasses == 0 && params == [] && dim == 0 && !ready
    {
      data := [];
      labels := [];
      numClasses := 0;
      params := [];
      dim := 0;
      ready := false;
    }

    /** `Init(lData, lLabels, iDim, iNumClasses)` with the draws `init` as the initial
        weights. At least one class is needed: with none, `ResetWeights` does not stop. */
    method Init(d: seq<Vector>, l: seq<nat>, dm: nat, nc: nat, init: seq<Vector>)
      requires nc >= 1 && |init| == nc - 1 && Shaped(init, d, l, dm)
      modifies this
      ensures Valid() && ready && data == d && labels == l && dim == dm && numClasses == nc && params == init
    {
      data, labels, numClasses, dim := d, l, nc, dm;
      ResetWeights(init);
      ready := true;
    }

    /** `IsReady()`. */
    function IsReady(): (r: bool)
      reads this
      ensures r <==> ready
    {
      ready
    }

    /** `ResetWeights()`: `iNumClasses - 1` fresh weight vectors of length `iDim`, the
        random draws being `init`. */
    method ResetWeights(init: seq<Vector>)
      requires numClasses >= 1 && |init| == numClasses - 1 && forall i :: 0 <= i < |init| ==> |init[i]| == dim
      modifies this
      ensures params == init && |params| == numClasses - 1
      ensures data == old(data) && labels == old(labels) && numClasses == old(numClasses) && dim == old(dim) && ready == old(ready)
    {
      var ps: seq<Vector> := [];
      var i := 0;
      while i != numClasses - 1
        invariant 0 <= i <= numClasses - 1 && ps == init[..i]
        invariant data == old(data) && labels == old(labels) && numClasses == old(numClasses) && dim == old(dim) && ready == old(ready)
      {
        ps := ps + [init[i]];
        i := i + 1;
      }
      params := ps;
    }

    /** `Predict(vecPoint)` for a point of length `iDim`. */
    method Predict(x: Vector, exp: real -> real) returns (r: Option<seq<real>>)
      requires Valid() && |x| == dim
      ensures r == Prediction(params, x, exp)
    {
      r := PredictWith(params, x, exp);
    }

    /** `TrainStep(fLambda, fL2, bUseGradientClipping, fGradClippingThreshold)`: every
        weight vector moves to `NewParam`, computed from the predictions of the weights
        before the step; the step returns 0. With no samples and at least one weight
        vector the gradient stays `undefined` and scaling it throws before anything changes. */
    method TrainStep(lambda: real, l2: real, clip: bool, threshold: real, exp: real -> real, sqrt: real -> real) returns (r: Result<real>)
      requires Valid() && PositiveExp(exp)
      requires clip ==> threshold >= 0.0 && SoundSqrt(sqrt)
      modifies this
      ensures Valid() && data == old(data) && labels == old(labels) && numClasses == old(numClasses) && dim == old(dim) && ready == old(ready)
      ensures r.Err? <==> data == [] && |params| > 0
      ensures r.Ok? ==> r.value == 0.0
      ensures data == [] ==> params == old(params)
      ensures data != [] ==> params == Stepped(old(params), data, labels, dim, exp, lambda, l2, clip, threshold, sqrt)
    {
      if |data| == 0 {
        if |params| > 0 {
          return Err("TypeError: vecGrad is undefined");
        }
        return Ok(0.0);
      }
      var ps, ds, ls, dm := params, data, labels, dim;
      var preds := ComputePredictions(ps, ds, exp);
      PredictionsCover(ps, ds, dm, exp);
      var next := UpdateAll(ps, ds, ls, dm, preds, lambda, l2, clip, threshold, sqrt);
      params := next;
      return Ok(0.0);
    }

    /** `LogLikelihood()`: the sum of `log(Predict(x_i)[t_i])` over the samples. */
    method LogLikelihood(exp: real -> real, log: real -> real) returns (r: Result<Option<real>>)
      requires Valid()
      ensures r == LogLik(params, data, labels, |data|, exp, log)
    {
      r := LogLikWith(params, data, labels, exp, log);
    }
  }

  /** The loop of `LogLikelihood`: `Predict` each sample and add the logarithm of its
      label's entry, leaving at the first label without one. */
  method LogLikWith(params: seq<Vector>, data: seq<Vector>, labels: seq<nat>, exp: real -> real, log: real -> real) returns (r: Result<Option<real>>)
    requires |labels| == |data| && forall j :: 0 <= j < |data| ==> Fits(params, data[j])
    ensures r == LogLik(params, data, labels, |data|, exp, log)
  {
    r := Ok(Some(0.0));
    var i := 0;
    while i != |data|
      invariant 0 <= i <= |data| && r == LogLik(params, data, labels, i, exp, log) && r.Ok?
    {
      var pred := PredictWith(params, data[i], exp);
      // fCost += math.log(pred[t]); `log` of `undefined` throws, of `NaN` gives `NaN`
      r := LogStep(r, pred, PredictionLength(params), labels[i], log);
      LogLikNext(params, data, labels, i, exp, log);
      if r.Err? {
        LogLikErrSticks(params, data, labels, i + 1, |data|, exp, log);
        return;
      }
      i := i + 1;
    }
  }

  /** The first loop of `TrainStep`: one prediction per sample, with the weights of
      before the step. */
  method ComputePredictions(params: seq<Vector>, data: seq<Vector>, exp: real -> real) returns (preds: seq<Option<seq<real>>>)
    requires forall j :: 0 <= j < |data| ==> Fits(params, data[j])
    ensures preds == Predictions(params, data, exp)
  {
    preds := [];
    var j := 0;
    while j != |data|
      invariant 0 <= j <= |data| && preds == Predictions(params, data[..j], exp)
    {
      var p := PredictWith(params, data[j], exp);
      preds := preds + [p];
      j := j + 1;
    }
    assert data[..|data|] == data;
  }

  /** The update loop of `TrainStep`: each weight vector in turn replaced by `NewParam`,
      all from the same predictions. */
  method UpdateAll(params: seq<Vector>, data: seq<Vector>, labels: seq<nat>, dim: nat, preds: seq<Option<seq<real>>>,
                   lambda: real, l2: real, clip: bool, threshold: real, sqrt: real -> real) returns (next: seq<Vector>)
    requires Shaped(params, data, labels, dim) && data != [] && |preds| == |data| && Covers(preds, |params|)
    requires clip ==> threshold >= 0.0 && SoundSqrt(sqrt)
    ensures |next| == |params|
    ensures forall i :: 0 <= i < |params| ==> next[i] == NewParam(params, data, labels, preds, i, lambda, l2, clip, threshold, sqrt)
  {
    next := params;
    var i := 0;
    while i != |params|
      invariant 0 <= i <= |params| && |next| == |params|
      invariant forall k :: 0 <= k < i ==> next[k] == NewParam(params, data, labels, preds, k, lambda, l2, clip, threshold, sqrt)
    {
      var g := SumTerms(data, labels, preds, i, dim);
      g := Scale(g, -1.0 / |data| as real);
      g := Add(g, Scale(params[i], l2));
      NormNonNeg(g, sqrt);
      if clip {
        g := Utils.GradientClipping(g, threshold, sqrt);
      }
      next := next[i := Sub(params[i], Scale(g, lambda))];
      i := i + 1;
    }
  }
}
