/** The `vml_utils` helpers the models share: `ArgMax`, `FillList`, the
  polynomial feature maps and gradient clipping.
 */
module Utils {
  import opened Vectors
  import opened VmlMath
  import opened Wrappers

  /** `i` is the lowest index holding the largest entry of `l`. */
  ghost predicate IsFirstMax(l: seq<real>, i: nat)
  {
    i < |l| &&
    (forall j :: 0 <= j < |l| ==> l[j] <= l[i]) &&
    (forall j :: 0 <= j < i ==> l[j] < l[i])
  }

  /** The index `ArgMax` settles on, as a function for the specifications. */
  function MaxIndex(l: seq<real>): (r: nat)
    requires l != []
    ensures IsFirstMax(l, r)
  {
    if |l| == 1 then 0
    else
      var i := MaxIndex(l[..|l| - 1]);
      if l[i] < l[|l| - 1] then |l| - 1 else i
  }

  /** The lowest index of a maximum is unique. */
  lemma FirstMaxUnique(l: seq<real>, i: nat, j: nat)
    requires IsFirstMax(l, i) && IsFirstMax(l, j)
    ensures i == j
  {
    var atI, atJ := l[i], l[j];
    assert atI <= atJ && atJ <= atI;
  }

  /** `i` is the lowest index holding the smallest entry of `l`. */
  ghost predicate IsFirstMin(l: seq<real>, i: nat)
  {
    i < |l| &&
    (forall j :: 0 <= j < |l| ==> l[i] <= l[j]) &&
    (forall j :: 0 <= j < i ==> l[i] < l[j])
  }

  /** The lowest index of the smallest entry, as a function for the specifications. */
  function MinIndex(l: seq<real>): (r: nat)
    requires l != []
    ensures IsFirstMin(l, r)
  {
    if |l| == 1 then 0
    else
      var i := MinIndex(l[..|l| - 1]);
      if l[|l| - 1] < l[i] then |l| - 1 else i
  }

  /** The lowest index of a minimum is unique. */
  lemma FirstMinUnique(l: seq<real>, i: nat, j: nat)
    requires IsFirstMin(l, i) && IsFirstMin(l, j)
    ensures i == j
  {
    var atI, atJ := l[i], l[j];
    assert atI <= atJ && atJ <= atI;
  }

  /** One more entry in a scan for the first minimum: it takes over only when strictly
      smaller than the minimum so far. */
  lemma FirstMinExtend(l: seq<real>, i: nat, j: nat)
    requires j < |l| && (j == 0 ==> i == 0) && (j > 0 ==> IsFirstMin(l[..j], i))
    ensures j == 0 || l[j] < l[i] ==> IsFirstMin(l[..j + 1], j)
    ensures j > 0 && !(l[j] < l[i]) ==> IsFirstMin(l[..j + 1], i)
  {
    assert forall k :: 0 <= k < j ==> l[..j + 1][k] == l[..j][k];
  }

  /** `ArgMax(lData)`: throws "Empty list" on an empty list; otherwise the scan keeps
      the first entry and moves only to a strictly larger one, so the result is the
      lowest index of the maximum. */
  method ArgMax(l: seq<real>) returns (r: Result<nat>)
    ensures r.Err? <==> l == []
    ensures r.Err? ==> r.error == "Empty list"
    ensures r.Ok? ==> IsFirstMax(l, r.value) && r.value == MaxIndex(l)
  {
    if |l| == 0 {
      return Err("Empty list");
    }
    var result := 0;
    var item := l[0];
    var i := 1;
    while i < |l|
      invariant 1 <= i <= |l|
      invariant result < i && item == l[result]
      invariant IsFirstMax(l[..i], result)
    {
      if item < l[i] {
        result := i;
        item := l[i];
      }
      i := i + 1;
    }
    assert l[..|l|] == l;
    FirstMaxUnique(l, result, MaxIndex(l));
    return Ok(result);
  }

  /** The class probabilities the SVM and the perceptron give a decision value: `[0, 1]`
      below 0, `[1, 0]` above 0 and `[0.5, 0.5]` at 0. */
  function SignToProbs(sum: real): (r: seq<real>)
    ensures |r| == 2 && r[0] + r[1] == 1.0 && 0.0 <= r[0] <= 1.0 && 0.0 <= r[1] <= 1.0
    ensures sum > 0.0 <==> r[0] > r[1]
    ensures sum < 0.0 <==> r[0] < r[1]
  {
    if sum < 0.0 then [0.0, 1.0] else if sum > 0.0 then [1.0, 0.0] else [0.5, 0.5]
  }

  /** `FillList(iLen, _Value)`: `iLen` copies of the value. */
  method FillList<T>(n: nat, v: T) returns (r: seq<T>)
    ensures |r| == n
    ensures forall i :: 0 <= i < n ==> r[i] == v
  {
    r := [];
    var i := 0;
    while i != n
      invariant 0 <= i <= n
      invariant |r| == i
      invariant forall k :: 0 <= k < i ==> r[k] == v
    {
      r := r + [v];
      i := i + 1;
    }
  }

  /** The polynomial features `(1, x, x^2, ..., x^d)` of one value. */
  function Phi(x: real, d: nat): (r: Vector)
    ensures |r| == d + 1
  {
    seq(d + 1, j requires 0 <= j => Pow(x, j))
  }

  /** `ComputePolynomPhi(x, iDegree)`: entry `j` is `x^j` for `j <= iDegree`, so entry 0 is 1. */
  method ComputePolynomPhi(x: real, d: nat) returns (phi: Vector)
    ensures |phi| == d + 1 && phi[0] == 1.0
    ensures forall j :: 0 <= j <= d ==> phi[j] == Pow(x, j)
    ensures phi == Phi(x, d)
  {
    phi := [];
    var j := 0;
    while j != d + 1
      invariant 0 <= j <= d + 1
      invariant |phi| == j
      invariant forall k :: 0 <= k < j ==> phi[k] == Pow(x, k)
    {
      phi := phi + [Pow(x, j)];
      j := j + 1;
    }
  }

  /** The features of one point: `Phi` of each of its first `dim` coordinates, concatenated. */
  function FeatureRow(p: Vector, dim: nat, d: nat): (r: Vector)
    requires dim <= |p|
    ensures |r| == dim * (d + 1)
  {
    if dim == 0 then [] else FeatureRow(p, dim - 1, d) + Phi(p[dim - 1], d)
  }

  /** Entry `j * (d + 1) + k` of a feature row is the `k`-th power of coordinate `j`. */
  lemma {:induction false} FeatureRowAt(p: Vector, dim: nat, d: nat, j: nat, k: nat)
    requires dim <= |p| && j < dim && k <= d
    ensures j * (d + 1) + k < dim * (d + 1)
    ensures FeatureRow(p, dim, d)[j * (d + 1) + k] == Pow(p[j], k)
  {
    MulLess(j, dim, d + 1, k);
    if j < dim - 1 {
      MulLess(j, dim - 1, d + 1, k);
      FeatureRowAt(p, dim - 1, d, j, k);
    } else {
      assert j * (d + 1) == (dim - 1) * (d + 1);
    }
  }

  lemma MulLess(j: nat, n: nat, m: nat, k: nat)
    requires j < n && k < m
    ensures j * m + k < n * m
  {
    assert (j + 1) * m <= n * m;
  }

  /** `PolynomFeatureTransform(lData, iDim, iDegree)`: one feature row per point.
      Every point must have at least `iDim` coordinates. */
  method PolynomFeatureTransform(data: seq<Vector>, dim: nat, d: nat) returns (bigPhi: seq<Vector>)
    requires forall i :: 0 <= i < |data| ==> dim <= |data[i]|
    ensures |bigPhi| == |data|
    ensures forall i :: 0 <= i < |data| ==> bigPhi[i] == FeatureRow(data[i], dim, d)
    ensures forall i :: 0 <= i < |data| ==> |bigPhi[i]| == dim * (d + 1)
  {
    bigPhi := [];
    var i := 0;
    while i != |data|
      invariant 0 <= i <= |data|
      invariant |bigPhi| == i
      invariant forall k :: 0 <= k < i ==> bigPhi[k] == FeatureRow(data[k], dim, d)
    {
      var point := data[i];
      var phi := [];
      var j := 0;
      while j != dim
        invariant 0 <= j <= dim
        invariant phi == FeatureRow(point, j, d)
      {
        var part := ComputePolynomPhi(point[j], d);
        phi := phi + part;
        j := j + 1;
      }
      bigPhi := bigPhi + [phi];
      i := i + 1;
    }
  }

  /** `GradientClipping(grad, fThreshold)`: the gradient scaled by
      `fThreshold / norm` when its norm exceeds the threshold, else unchanged. */
  function GradientClipping(g: Vector, threshold: real, sqrt: real -> real): (r: Vector)
    requires Norm(g, sqrt) > threshold ==> Norm(g, sqrt) != 0.0
    ensures |r| == |g|
    ensures Norm(g, sqrt) <= threshold ==> r == g
    ensures Norm(g, sqrt) > threshold ==> r == Scale(g, threshold / Norm(g, sqrt))
  {
    var norm := Norm(g, sqrt);
    if norm > threshold then Scale(g, threshold / norm) else g
  }

  /** With a sound square root and a non-negative threshold, a clipped gradient has
      norm exactly the threshold. */
  lemma ClippedNorm(g: Vector, threshold: real, sqrt: real -> real)
    requires SoundSqrt(sqrt) && threshold >= 0.0 && Norm(g, sqrt) > threshold
    ensures Norm(GradientClipping(g, threshold, sqrt), sqrt) == threshold
  {
    var n := Norm(g, sqrt);
    var c := threshold / n;
    SumSqNonNeg(g);
    assert Sq(n) == SumSq(g);
    SumSqScale(g, c);
    SquareOfQuotient(threshold, n);
    assert SumSq(Scale(g, c)) == Sq(threshold);
    var m := Norm(Scale(g, c), sqrt);
    assert Sq(m) == Sq(threshold) && m >= 0.0;
    SquareInjective(m, threshold);
  }

  /** `(a / b)^2 * b^2 == a^2` for `b > 0`. */
  lemma SquareOfQuotient(a: real, b: real)
    requires b > 0.0
    ensures Sq(a / b) * Sq(b) == Sq(a)
  {
    var q := a / b;
    assert q * b == a;
    assert Sq(q) * Sq(b) == (q * b) * (q * b);
  }
}
