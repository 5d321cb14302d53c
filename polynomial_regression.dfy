/** Polynomial regression `vml_PolynomialRegression` on points `(x, y)`.

  Every point becomes the feature row `phi(x) = (1, x, ..., x^d)` with target `y`.
  The model is fitted by full-batch gradient descent on the cost
  `1/2 sum (y - w . phi(x))^2`: the data gradient is clipped to norm 10
  (a constant of the source), the term `|w| * fReg` is added entry-wise, and
  the weights move by the learning rate times the sum. The random initial
  weights are a parameter of `Init`; the square root is a parameter.
 */
module PolynomialRegression {
  import opened Vectors
  import opened VmlMath
  import opened Wrappers
  import Utils

  /** The clipping threshold `UpdateWeights` passes to `GradientClipping`. */
  const ClipNorm: real := 10.0

  /** Every point has the two coordinates `ConvertData` reads. */
  predicate Planar(ps: seq<Vector>)
  {
    forall i :: 0 <= i < |ps| ==> |ps[i]| >= 2
  }

  /** The feature rows `ComputePhi(point[0])` of the points. */
  function Rows(ps: seq<Vector>, d: nat): (r: seq<Vector>)
    requires Planar(ps)
    ensures |r| == |ps| && forall i :: 0 <= i < |ps| ==> r[i] == Utils.Phi(ps[i][0], d)
  {
    seq(|ps|, i requires 0 <= i < |ps| => Utils.Phi(ps[i][0], d))
  }

  /** The targets `point[1]` of the points. */
  function Targets(ps: seq<Vector>): (r: seq<real>)
    requires Planar(ps)
    ensures |r| == |ps| && forall i :: 0 <= i < |ps| ==> r[i] == ps[i][1]
  {
    seq(|ps|, i requires 0 <= i < |ps| => ps[i][1])
  }

  /** The rows all have the length of the weights. */
  ghost predicate Shaped(w: Vector, data: seq<Vector>, labels: seq<real>)
  {
    |labels| == |data| && forall i :: 0 <= i < |data| ==> |data[i]| == |w|
  }

  /** The squared residuals `(y_i - w . phi_i)^2` of the first `n` samples, summed from the left. */
  function Rss(w: Vector, data: seq<Vector>, labels: seq<real>, n: nat): real
    requires Shaped(w, data, labels) && n <= |data|
  {
    if n == 0 then 0.0 else Rss(w, data, labels, n - 1) + Sq(labels[n - 1] - Dot(w, data[n - 1]))
  }

  /** What `ComputeError` returns: half the residual sum of squares. */
  function Cost(w: Vector, data: seq<Vector>, labels: seq<real>): real
    requires Shaped(w, data, labels)
  {
    Rss(w, data, labels, |data|) * 0.5
  }

  /** The partial sums are never negative, and are 0 exactly when every residual counted is 0. */
  lemma {:induction false} RssZeroIff(w: Vector, data: seq<Vector>, labels: seq<real>, n: nat)
    requires Shaped(w, data, labels) && n <= |data|
    ensures Rss(w, data, labels, n) >= 0.0
    ensures Rss(w, data, labels, n) == 0.0 <==> forall i :: 0 <= i < n ==> labels[i] == Dot(w, data[i])
  {
    if n > 0 {
      RssZeroIff(w, data, labels, n - 1);
      SquarePositive(labels[n - 1] - Dot(w, data[n - 1]));
    }
  }

  /** The cost is never negative, and is 0 exactly when the weights fit every sample. */
  lemma CostZeroIffExact(w: Vector, data: seq<Vector>, labels: seq<real>)
    requires Shaped(w, data, labels)
    ensures Cost(w, data, labels) >= 0.0
    ensures Cost(w, data, labels) == 0.0 <==> forall i :: 0 <= i < |data| ==> labels[i] == Dot(w, data[i])
  {
    RssZeroIff(w, data, labels, |data|);
  }

  /** The gradient terms `phi_i * (y_i - w . phi_i)` of the loop of `UpdateWeights`. */
  function GradTerms(w: Vector, data: seq<Vector>, labels: seq<real>): (r: seq<Vector>)
    requires Shaped(w, data, labels)
    ensures |r| == |data| && forall i :: 0 <= i < |r| ==> |r[i]| == |w|
  {
    seq(|data|, i requires 0 <= i < |data| => Scale(data[i], labels[i] - Dot(w, data[i])))
  }

  /** The data gradient `-1/n sum_i phi_i (y_i - w . phi_i)` of a non-empty data set. */
  function DataGradient(w: Vector, data: seq<Vector>, labels: seq<real>): (r: Vector)
    requires Shaped(w, data, labels) && data != []
    ensures |r| == |w|
  {
    Scale(VecSum(GradTerms(w, data, labels)), -1.0 / |data| as real)
  }

  /** The weights after one `UpdateWeights(fLambda, fReg)`: the clipped data gradient
      plus `|w| * fReg`, times the learning rate, subtracted from the weights. */
  function NewWeights(w: Vector, data: seq<Vector>, labels: seq<real>, lambda: real, reg: real, sqrt: real -> real): (r: Vector)
    requires Shaped(w, data, labels) && data != []
    ensures |r| == |w|
  {
    var g := Utils.GradientClipping(DataGradient(w, data, labels), ClipNorm, sqrt);
    Sub(w, Scale(Add(g, Scale(AbsAll(w), reg)), lambda))
  }

  /** The data gradient that enters the step never has a norm above 10. */
  lemma ClippedGradientBounded(w: Vector, data: seq<Vector>, labels: seq<real>, sqrt: real -> real)
    requires Shaped(w, data, labels) && data != [] && SoundSqrt(sqrt)
    ensures Norm(Utils.GradientClipping(DataGradient(w, data, labels), ClipNorm, sqrt), sqrt) <= ClipNorm
  {
    var g := DataGradient(w, data, labels);
    if Norm(g, sqrt) > ClipNorm {
      Utils.ClippedNorm(g, ClipNorm, sqrt);
    }
  }

  /** Weights that fit every sample exactly are a fixed point of `UpdateWeights` without
      regularisation. */
  lemma ExactFitIsFixedPoint(w: Vector, data: seq<Vector>, labels: seq<real>, lambda: real, sqrt: real -> real)
    requires Shaped(w, data, labels) && data != [] && SoundSqrt(sqrt)
    requires forall i :: 0 <= i < |data| ==> labels[i] == Dot(w, data[i])
    ensures NewWeights(w, data, labels, lambda, 0.0, sqrt) == w
  {
    var m := |w|;
    var terms := GradTerms(w, data, labels);
    forall i | 0 <= i < |data|
      ensures terms[i] == Zeros(m)
    {
      assert labels[i] - Dot(w, data[i]) == 0.0;
    }
    VecSumZeros(terms, m);
    var g := DataGradient(w, data, labels);
    assert g == Zeros(m);
    SumSqZeroIffZero(g);
    assert Norm(g, sqrt) == 0.0 by {
      assert Sq(Norm(g, sqrt)) == 0.0;
      SquarePositive(Norm(g, sqrt));
    }
    assert Utils.GradientClipping(g, ClipNorm, sqrt) == g;
    assert Scale(AbsAll(w), 0.0) == Zeros(m);
    assert Add(g, Zeros(m)) == Zeros(m);
    assert Sub(w, Scale(Zeros(m), lambda)) == w;
  }

  /** `phi(0) = (1, 0, ..., 0)`, so the prediction at 0 is the bias weight. */
  lemma PredictAtZeroIsBias(w: Vector)
    requires |w| >= 1
    ensures Dot(w, Utils.Phi(0.0, |w| - 1)) == w[0]
  {
    DotWithUnit(w, Utils.Phi(0.0, |w| - 1));
  }

  lemma {:induction false} DotWithUnit(w: Vector, e: Vector)
    requires |w| == |e| >= 1 && e[0] == 1.0 && forall j :: 1 <= j < |e| ==> e[j] == 0.0
    ensures Dot(w, e) == w[0]
  {
    if |w| > 1 {
      DotWithUnit(w[..|w| - 1], e[..|e| - 1]);
    }
  }

  /** The loop of `UpdateWeights`: the first gradient term, then `math.add` of each further one. */
  method SumGradient(w: Vector, data: seq<Vector>, labels: seq<real>) returns (g: Vector)
    requires Shaped(w, data, labels) && data != []
    ensures g == VecSum(GradTerms(w, data, labels))
  {
    ghost var terms := GradTerms(w, data, labels);
    g := Scale(data[0], labels[0] - Dot(w, data[0]));
    assert terms[..1] == [terms[0]];
    var i := 1;
    while i != |data|
      invariant 1 <= i <= |data|
      invariant g == VecSum(terms[..i])
    {
      assert terms[..i + 1][..i] == terms[..i];
      g := Add(g, Scale(data[i], labels[i] - Dot(w, data[i])));
      i := i + 1;
    }
    assert terms[..|data|] == terms;
  }

  /** The loop of `ConvertData`: the feature row of `point[0]` and the target `point[1]`
      of each point, pushed in order. */
  method ConvertPoints(ps: seq<Vector>, d: nat) returns (ds: seq<Vector>, ls: seq<real>)
    requires Planar(ps)
    ensures ds == Rows(ps, d) && ls == Targets(ps)
  {
    ds, ls := [], [];
    var i := 0;
    while i != |ps|
      invariant 0 <= i <= |ps|
      invariant ds == Rows(ps[..i], d) && ls == Targets(ps[..i])
    {
      var phi := Utils.ComputePolynomPhi(ps[i][0], d);
      ds := ds + [phi];
      ls := ls + [ps[i][1]];
      i := i + 1;
    }
    assert ps[..|ps|] == ps;
  }

  class PolynomialModel {
    var weights: Vector
    var data: seq<Vector>
    var labels: seq<real>
    var bigPhi: seq<Vector>
    var degree: nat
    var ready: bool

    /** Once initialised: `iDegree + 1` weights and one feature row of that length per sample. */
    ghost predicate Valid()
      reads this
    {
      ready && |weights| == degree + 1 && Shaped(weights, data, labels)
    }

    /** Not ready; `null` weights are the empty vector. */
    constructor()
      ensures !ready && weights == [] && data == [] && labels == [] && bigPhi == [] && degree == 0
    {
      weights := [];
      data := [];
      labels := [];
      bigPhi := [];
      degree := 0;
      ready := false;
    }

    /** `Init(iDegree, lData)`: converts the points, takes the draws `w0` as the
        `iDegree + 1` initial weights and becomes ready. */
    method Init(d: nat, ps: seq<Vector>, w0: Vector)
      requires Planar(ps) && |w0| == d + 1
      modifies this
      ensures Valid() && degree == d && weights == w0
      ensures data == Rows(ps, d) && bigPhi == Rows(ps, d) && labels == Targets(ps)
    {
      degree := d;
      ConvertData(ps);
      weights := w0;
      ready := true;
    }

    /** `IsReady()`. */
    function IsReady(): (r: bool)
      reads this
      ensures r <==> ready
    {
      ready
    }

    /** `ComputePhi(x)`: `(1, x, ..., x^iDegree)`. */
    method ComputePhi(x: real) returns (phi: Vector)
      ensures |phi| == degree + 1 && phi[0] == 1.0
      ensures forall j :: 0 <= j <= degree ==> phi[j] == Pow(x, j)
    {
      phi := Utils.ComputePolynomPhi(x, degree);
    }

    /** `ConvertData(lData)`: one feature row of `point[0]` and one target `point[1]` per point. */
    method ConvertData(ps: seq<Vector>)
      requires Planar(ps)
      modifies this
      ensures data == Rows(ps, degree) && bigPhi == Rows(ps, degree) && labels == Targets(ps)
      ensures weights == old(weights) && degree == old(degree) && ready == old(ready)
    {
      var ds, ls := ConvertPoints(ps, degree);
      data, labels, bigPhi := ds, ls, ds;
    }

    /** `ComputeError()`: half the residual sum of squares of the current weights. */
    method ComputeError() returns (e: real)
      requires Valid()
      ensures e == Cost(weights, data, labels) && e >= 0.0
    {
      e := 0.0;
      var i := 0;
      while i != |data|
        invariant 0 <= i <= |data|
        invariant e == Rss(weights, data, labels, i)
      {
        e := e + Sq(labels[i] - Dot(weights, data[i]));
        i := i + 1;
      }
      e := e * 0.5;
      CostZeroIffExact(weights, data, labels);
    }

    /** `UpdateWeights(fLambda, fReg)`: one gradient step to `NewWeights`. On an empty
        data set the gradient stays `undefined` and scaling it throws, before the
        weights change. */
    method UpdateWeights(lambda: real, reg: real, sqrt: real -> real) returns (r: Result<()>)
      requires Valid()
      modifies this
      ensures Valid() && data == old(data) && labels == old(labels) && bigPhi == old(bigPhi) && degree == old(degree)
      ensures r.Err? <==> old(data) == []
      ensures r.Err? ==> weights == old(weights)
      ensures r.Ok? ==> weights == NewWeights(old(weights), data, labels, lambda, reg, sqrt)
    {
      if |data| == 0 {
        return Err("TypeError: myGrad is undefined");
      }
      var w := weights;
      var absReg := Scale(AbsAll(w), reg);
      var g := SumGradient(w, data, labels);
      g := Scale(g, -1.0 / |data| as real);
      g := Utils.GradientClipping(g, ClipNorm, sqrt);
      var gradCost := Add(g, absReg);
      weights := Sub(w, Scale(gradCost, lambda));
      return Ok(());
    }

    /** `Predict(x)`: the weights times `phi(x)`. */
    method Predict(x: real) returns (y: real)
      requires Valid()
      ensures y == Dot(weights, Utils.Phi(x, degree))
      ensures x == 0.0 ==> y == weights[0]
    {
      var phi := Utils.ComputePolynomPhi(x, degree);
      y := Dot(weights, phi);
      if x == 0.0 {
        PredictAtZeroIsBias(weights);
      }
    }
  }
}
