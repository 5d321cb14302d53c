/** The perceptron `vml_Perceptron` on two classes of two-dimensional points.

  Samples are the points with a constant bias input 1 appended, class A
  labelled +1 and class B labelled -1. A training step leaves the weights alone
  when the sign of the score `w . x` already equals the label and otherwise adds
  `lambda * label * x`; since the sign of a zero score is 0, a zero score always
  triggers an update. The random initial weights and the random sample index
  are parameters.
 */
module Perceptron {
  import opened Vectors
  import opened VmlMath
  import Utils

  /** `[point[0], point[1], 1]`: the point with the bias input appended. */
  function Augment(p: Vector): (r: Vector)
    requires |p| >= 2
    ensures |r| == 3
  {
    [p[0], p[1], 1.0]
  }

  /** Every point has the two coordinates `convertData` reads. */
  predicate Planar(ps: seq<Vector>)
  {
    forall i :: 0 <= i < |ps| ==> |ps[i]| >= 2
  }

  /** The samples of `convertData`: class A first, then class B. */
  function Samples(a: seq<Vector>, b: seq<Vector>): (r: seq<Vector>)
    requires Planar(a) && Planar(b)
    ensures |r| == |a| + |b|
  {
    seq(|a|, i requires 0 <= i < |a| => Augment(a[i])) + seq(|b|, i requires 0 <= i < |b| => Augment(b[i]))
  }

  /** The labels of `convertData`: +1 for each point of A, then -1 for each point of B. */
  function SampleLabels(na: nat, nb: nat): (r: seq<real>)
    ensures |r| == na + nb
  {
    seq(na, _ => 1.0) + seq(nb, _ => -1.0)
  }

  /** Sample `i` is the `i`-th point of A with label +1, or the `(i - |A|)`-th point of B
      with label -1; every sample ends in the bias input 1. */
  lemma SamplesAt(a: seq<Vector>, b: seq<Vector>, i: nat)
    requires Planar(a) && Planar(b) && i < |a| + |b|
    ensures var s, t := Samples(a, b), SampleLabels(|a|, |b|);
      s[i][2] == 1.0 &&
      (i < |a| ==> s[i][0] == a[i][0] && s[i][1] == a[i][1] && t[i] == 1.0) &&
      (i >= |a| ==> s[i][0] == b[i - |a|][0] && s[i][1] == b[i - |a|][1] && t[i] == -1.0)
  {
  }

  /** The weights after a step on sample `x` with label `t`. */
  function Step(w: Vector, x: Vector, t: real, lambda: real): (r: Vector)
    requires |w| == |x|
    ensures |r| == |w|
  {
    if Sign(Dot(w, x)) == t then w else Add(w, Scale(x, t * lambda))
  }

  /** A misclassified sample's score moves towards its label by `lambda` times its
      squared norm `x . x`; a zero score counts as misclassified for both labels. */
  lemma StepMargin(w: Vector, x: Vector, t: real, lambda: real)
    requires |w| == |x| && (t == 1.0 || t == -1.0) && Sign(Dot(w, x)) != t
    ensures t == 1.0 ==> Dot(Step(w, x, t, lambda), x) == Dot(w, x) + lambda * Dot(x, x)
    ensures t == -1.0 ==> Dot(Step(w, x, t, lambda), x) == Dot(w, x) - lambda * Dot(x, x)
  {
    StepOnMistake(w, x, t, lambda);
    UpdateMargin(w, x, t, lambda);
  }

  lemma StepOnMistake(w: Vector, x: Vector, t: real, lambda: real)
    requires |w| == |x| && Sign(Dot(w, x)) != t
    ensures Step(w, x, t, lambda) == Add(w, Scale(x, t * lambda))
  {
  }

  lemma UpdateMargin(w: Vector, x: Vector, t: real, lambda: real)
    requires |w| == |x| && (t == 1.0 || t == -1.0)
    ensures t == 1.0 ==> Dot(Add(w, Scale(x, t * lambda)), x) == Dot(w, x) + lambda * Dot(x, x)
    ensures t == -1.0 ==> Dot(Add(w, Scale(x, t * lambda)), x) == Dot(w, x) - lambda * Dot(x, x)
  {
    if t == 1.0 {
      DotAddScaled(w, x, lambda);
    } else {
      DotAddScaled(w, x, -lambda);
    }
  }

  lemma DotAddScaled(w: Vector, x: Vector, c: real)
    requires |w| == |x|
    ensures Dot(Add(w, Scale(x, c)), x) == Dot(w, x) + c * Dot(x, x)
  {
    DotAddLeft(w, Scale(x, c), x);
    DotScaleLeft(x, x, c);
  }

  /** A zero score is never a correct classification of a +1 or -1 label. */
  lemma ZeroScoreUpdates(w: Vector, x: Vector, t: real, lambda: real)
    requires |w| == |x| && (t == 1.0 || t == -1.0) && Dot(w, x) == 0.0
    ensures Step(w, x, t, lambda) == Add(w, Scale(x, t * lambda))
  {
  }

  /** A correctly classified sample is predicted as its own class. */
  lemma CorrectIsPredicted(w: Vector, x: Vector, t: real)
    requires |w| == |x| && Sign(Dot(w, x)) == t
    ensures t == 1.0 ==> Utils.SignToProbs(Dot(w, x)) == [1.0, 0.0]
    ensures t == -1.0 ==> Utils.SignToProbs(Dot(w, x)) == [0.0, 1.0]
  {
  }

  /** `sum_i (w . x_i) * t_i` over the first `n` samples. */
  function SignedScores(w: Vector, data: seq<Vector>, labels: seq<real>, n: nat): real
    requires n <= |data| && n <= |labels| && forall i :: 0 <= i < |data| ==> |data[i]| == |w|
  {
    if n == 0 then 0.0 else SignedScores(w, data, labels, n - 1) + Dot(w, data[n - 1]) * labels[n - 1]
  }

  /** The cost `ComputeError` returns: the negated sum of signed scores. */
  function Cost(w: Vector, data: seq<Vector>, labels: seq<real>): real
    requires |labels| == |data| && forall i :: 0 <= i < |data| ==> |data[i]| == |w|
  {
    -1.0 * SignedScores(w, data, labels, |data|)
  }

  /** When every sample is classified correctly every signed score is positive, so the
      cost is negative on a non-empty data set (and 0 on an empty one). */
  lemma {:induction false} AllCorrectNegative(w: Vector, data: seq<Vector>, labels: seq<real>, n: nat)
    requires n <= |data| && |labels| == |data| && forall i :: 0 <= i < |data| ==> |data[i]| == |w|
    requires forall i :: 0 <= i < n ==> (labels[i] == 1.0 || labels[i] == -1.0) && Sign(Dot(w, data[i])) == labels[i]
    ensures n > 0 ==> SignedScores(w, data, labels, n) > 0.0
    ensures n == 0 ==> SignedScores(w, data, labels, n) == 0.0
  {
    if n > 0 {
      AllCorrectNegative(w, data, labels, n - 1);
      var d, t := Dot(w, data[n - 1]), labels[n - 1];
      if t == 1.0 {
        assert d > 0.0;
      } else {
        assert d < 0.0;
        assert d * t == -d;
      }
    }
  }

  class PerceptronModel {
    var weights: Vector
    var data: seq<Vector>
    var labels: seq<real>
    var ready: bool

    /** Three weights (two coordinates and the bias), one label per sample and three
        inputs per sample. */
    ghost predicate Valid()
      reads this
    {
      |weights| == 3 && |labels| == |data| && forall i :: 0 <= i < |data| ==> |data[i]| == 3
    }

    /** The weights start `undefined`, written as the empty vector. */
    constructor()
      ensures weights == [] && data == [] && labels == [] && !ready
    {
      weights := [];
      data := [];
      labels := [];
      ready := false;
    }

    /** `Init(lClassA, lClassB)`: converts the data, takes the draws `w0` as the initial
        weights and sets the model ready. */
    method Init(a: seq<Vector>, b: seq<Vector>, w0: Vector)
      requires Planar(a) && Planar(b) && |w0| == 3
      modifies this
      ensures Valid() && ready && weights == w0
      ensures data == Samples(a, b) && labels == SampleLabels(|a|, |b|)
    {
      ConvertData(a, b);
      weights := w0;
      ready := true;
    }

    method IsReady() returns (r: bool)
      ensures r == ready
    {
      r := ready;
    }

    /** `convertData(lClassA, lClassB)`: the samples and labels, built by two push loops. */
    method ConvertData(a: seq<Vector>, b: seq<Vector>)
      requires Planar(a) && Planar(b)
      modifies this
      ensures data == Samples(a, b) && labels == SampleLabels(|a|, |b|)
      ensures weights == old(weights) && ready == old(ready)
    {
      var ds: seq<Vector> := [];
      var ls: seq<real> := [];
      var i := 0;
      while i != |a|
        invariant 0 <= i <= |a|
        invariant ds == seq(i, k requires 0 <= k < i => Augment(a[k]))
        invariant ls == seq(i, _ => 1.0)
      {
        ds := ds + [Augment(a[i])];
        ls := ls + [1.0];
        i := i + 1;
      }
      var j := 0;
      while j != |b|
        invariant 0 <= j <= |b|
        invariant ds == seq(|a|, k requires 0 <= k < |a| => Augment(a[k])) + seq(j, k requires 0 <= k < j => Augment(b[k]))
        invariant ls == seq(|a|, _ => 1.0) + seq(j, _ => -1.0)
      {
        ds := ds + [Augment(b[j])];
        ls := ls + [-1.0];
        j := j + 1;
      }
      data := ds;
      labels := ls;
    }

    /** `FitStep(fLambda)` on the sample `iIndex`: the perceptron rule `Step`. */
    method FitStep(lambda: real, index: nat)
      requires Valid() && index < |data|
      modifies this
      ensures data == old(data) && labels == old(labels) && ready == old(ready)
      ensures Valid()
      ensures weights == Step(old(weights), data[index], labels[index], lambda)
    {
      var input := data[index];
      var t := labels[index];
      var w := weights;
      var predLabel := Sign(Dot(w, input));
      if predLabel != t {
        weights := Add(w, Scale(input, t * lambda));
        StepOnMistake(w, input, t, lambda);
      }
    }

    /** `Predict(vecPoint)`: the class probabilities of the score `w . x`. */
    method Predict(p: Vector) returns (r: seq<real>)
      requires Valid() && |p| == 3
      ensures r == Utils.SignToProbs(Dot(weights, p))
    {
      var sum := Dot(weights, p);
      if sum < 0.0 {
        r := [0.0, 1.0];
      } else if sum > 0.0 {
        r := [1.0, 0.0];
      } else {
        r := [0.5, 0.5];
      }
    }

    /** `ComputeError()`: the negated sum of the signed scores of all samples. */
    method ComputeError() returns (e: real)
      requires Valid()
      ensures e == Cost(weights, data, labels)
    {
      var err := 0.0;
      var i := 0;
      while i != |data|
        invariant 0 <= i <= |data|
        invariant err == SignedScores(weights, data, labels, i)
      {
        err := err + Dot(weights, data[i]) * labels[i];
        i := i + 1;
      }
      e := -1.0 * err;
    }
  }
}
