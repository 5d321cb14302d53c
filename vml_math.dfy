/** The `vml_math` helpers: scaling, outer products built by repeating a row
  and multiplying element-wise, and the three kernels used by the SVM.

  The mathjs operations they call (`math.concat`, `math.transpose`,
  `math.dotMultiply`, `math.dotPow`, `math.exp`) are the functions below or
  parameters; `math.dotMultiply`'s "dimension mismatch" error is an `Err`.
 */
module VmlMath {
  import opened Vectors
  import opened Wrappers

  /** `MultiplyScalar`: every entry multiplied by the scalar. */
  function Scale(v: Vector, c: real): (r: Vector)
    ensures |r| == |v|
    ensures forall i :: 0 <= i < |v| ==> r[i] == v[i] * c
  {
    seq(|v|, i requires 0 <= i < |v| => v[i] * c)
  }

  /** `math.transpose` of a matrix whose rows all have `cols` entries. */
  function Transpose(m: Matrix, cols: nat): (r: Matrix)
    requires IsRect(m, cols)
    ensures |r| == cols && IsRect(r, |m|)
    ensures forall j, i :: 0 <= j < cols && 0 <= i < |m| ==> r[j][i] == m[i][j]
  {
    seq(cols, j requires 0 <= j < cols => seq(|m|, i requires 0 <= i < |m| => m[i][j]))
  }

  /** Both matrices have the same number of rows and equal row lengths. */
  predicate SameShape(a: Matrix, b: Matrix)
  {
    |a| == |b| && forall i :: 0 <= i < |a| ==> |a[i]| == |b[i]|
  }

  /** `math.dotMultiply`: the element-wise product, or an error on a shape mismatch. */
  function DotMultiply(a: Matrix, b: Matrix): (r: Result<Matrix>)
    ensures r.Ok? <==> SameShape(a, b)
    ensures r.Ok? ==> SameShape(r.value, a)
    ensures r.Ok? ==> forall i, j :: 0 <= i < |a| && 0 <= j < |a[i]| ==> r.value[i][j] == a[i][j] * b[i][j]
  {
    if SameShape(a, b) then
      Ok(seq(|a|, i requires 0 <= i < |a| =>
        seq(|a[i]|, j requires 0 <= j < |a[i]| => a[i][j] * b[i][j])))
    else
      Err("Dimension mismatch")
  }

  /** `n` copies of the row `a`, built as the source's loop of `math.concat` calls. */
  method RepeatRow(a: Vector, n: nat) returns (m: Matrix)
    requires n >= 1
    ensures |m| == n && IsRect(m, |a|)
    ensures forall i :: 0 <= i < n ==> m[i] == a
  {
    m := [a];
    var i := 0;
    while i != n - 1
      invariant 0 <= i <= n - 1
      invariant |m| == i + 1
      invariant forall k :: 0 <= k < |m| ==> m[k] == a
    {
      m := m + [a];
      i := i + 1;
    }
  }

  /** `Outer(matA, matB, iDim)` for the row matrix `[a]`: `iDim` copies of the row,
      multiplied element-wise by their transpose. The second argument is never read.
      The result is the `iDim` x `iDim` matrix of products `a[i] * a[j]`, and the only
      failure is the shape mismatch when `iDim` differs from the row's length. */
  method Outer(a: Vector, b: Vector, dim: nat) returns (r: Result<Matrix>)
    requires dim >= 1
    ensures r.Ok? <==> dim == |a|
    ensures r.Ok? ==> |r.value| == dim && IsRect(r.value, dim)
    ensures r.Ok? ==> forall i, j :: 0 <= i < dim && 0 <= j < dim ==> r.value[i][j] == a[i] * a[j]
  {
    var rows := RepeatRow(a, dim);
    var cols := Transpose(rows, |a|);
    r := DotMultiply(rows, cols);
    if dim == |a| {
      assert SameShape(rows, cols);
    } else {
      assert !SameShape(rows, cols) by {
        if |a| != 0 {
          assert |rows[0]| != |cols[0]|;
        }
      }
    }
  }

  /** `OuterEx(matA, matB, iDimA, iDimB)` for the rows `[a]` and `[b]`: the
      `iDimA` x `iDimB` matrix of products `a[i] * b[j]`, or the shape mismatch
      error unless the rows have exactly `iDimA` and `iDimB` entries. */
  method OuterEx(a: Vector, b: Vector, m: nat, n: nat) returns (r: Result<Matrix>)
    requires m >= 1 && n >= 1
    ensures r.Ok? <==> |a| == m && |b| == n
    ensures r.Ok? ==> |r.value| == m && IsRect(r.value, n)
    ensures r.Ok? ==> forall i, j :: 0 <= i < m && 0 <= j < n ==> r.value[i][j] == a[i] * b[j]
  {
    var rowsA := RepeatRow(a, n);
    var rowsB := RepeatRow(b, m);
    var colsB := Transpose(rowsB, |b|);
    var product := DotMultiply(rowsA, colsB);
    if |a| == m && |b| == n {
      assert SameShape(rowsA, colsB);
      r := Ok(Transpose(product.value, m));
    } else {
      assert !SameShape(rowsA, colsB) by {
        if |b| == n {
          assert |rowsA[0]| != |colsB[0]|;
        }
      }
      r := Err(product.error);
    }
  }

  /** `Kernel_Polynomial(x1, x2, d, b)`: `(x1 . x2 + b)^d`. */
  function KernelPolynomial(x: Vector, y: Vector, d: nat, b: real): real
    requires |x| == |y|
  {
    Pow(Dot(x, y) + b, d)
  }

  /** `Kernel_Linear(x1, x2, b)`: the polynomial kernel of degree 1, which is `x1 . x2 + b`. */
  function KernelLinear(x: Vector, y: Vector, b: real): (r: real)
    requires |x| == |y|
    ensures r == Dot(x, y) + b
  {
    PowOne(Dot(x, y) + b);
    KernelPolynomial(x, y, 1, b)
  }

  /** `Kernel_Gaussian(x1, x2, sigma)`: `exp(-distance^2 / sigma^2)`, the squares
      being `Math.pow(_, 2)`. For `sigma == 0` the quotient is `-Infinity`, whose
      exponential is 0, unless the distance is 0 as well, where it is `NaN` (`None`). */
  function KernelGaussian(x: Vector, y: Vector, sigma: real, exp: real -> real, sqrt: real -> real): (r: Option<real>)
    requires |x| == |y|
    ensures r.None? <==> sigma == 0.0 && Sq(Distance(x, y, sqrt)) == 0.0
  {
    var d2 := Sq(Distance(x, y, sqrt));
    if sigma != 0.0 then
      SquarePositive(sigma);
      Some(exp(-1.0 * d2 / Sq(sigma)))
    else if d2 == 0.0 then None
    else Some(0.0)
  }

  lemma KernelPolynomialSymmetric(x: Vector, y: Vector, d: nat, b: real)
    requires |x| == |y|
    ensures KernelPolynomial(x, y, d, b) == KernelPolynomial(y, x, d, b)
  {
    DotComm(x, y);
  }

  lemma PowOne(x: real)
    ensures Pow(x, 1) == x
  {
  }

  /** With a sound square root, the Gaussian kernel is `exp(-|x - y|^2 / sigma^2)`. */
  lemma KernelGaussianIsExpOfSqDist(x: Vector, y: Vector, sigma: real, exp: real -> real, sqrt: real -> real)
    requires |x| == |y| && SoundSqrt(sqrt) && sigma != 0.0
    ensures Sq(sigma) > 0.0 && KernelGaussian(x, y, sigma, exp, sqrt) == Some(exp(-SqDist(x, y) / Sq(sigma)))
  {
    SquarePositive(sigma);
    SumSqNonNeg(Sub(x, y));
  }

  /** The Gaussian kernel is symmetric. */
  lemma KernelGaussianSymmetric(x: Vector, y: Vector, sigma: real, exp: real -> real, sqrt: real -> real)
    requires |x| == |y|
    ensures KernelGaussian(x, y, sigma, exp, sqrt) == KernelGaussian(y, x, sigma, exp, sqrt)
  {
    SqDistComm(x, y);
  }

  /** The Gaussian kernel of a point with itself is `exp(0) = 1`, whenever `sigma != 0`. */
  lemma KernelGaussianSelf(x: Vector, sigma: real, exp: real -> real, sqrt: real -> real)
    requires SoundSqrt(sqrt) && exp(0.0) == 1.0 && sigma != 0.0
    ensures KernelGaussian(x, x, sigma, exp, sqrt) == Some(1.0)
  {
    SqDistSelf(x);
    KernelGaussianIsExpOfSqDist(x, x, sigma, exp, sqrt);
    assert -SqDist(x, x) / Sq(sigma) == 0.0;
  }

  lemma ScalePrefix(v: Vector, c: real, n: nat)
    requires n <= |v|
    ensures Scale(v, c)[..n] == Scale(v[..n], c)
  {
    forall i | 0 <= i < n
      ensures Scale(v, c)[..n][i] == Scale(v[..n], c)[i]
    {
      assert v[..n][i] == v[i];
    }
  }

  /** Scaling distributes over the inner product. */
  lemma {:induction false} DotScaleLeft(a: Vector, b: Vector, c: real)
    requires |a| == |b|
    ensures Dot(Scale(a, c), b) == c * Dot(a, b)
  {
    if a != [] {
      var n := |a| - 1;
      ScalePrefix(a, c, n);
      DotScaleLeft(a[..n], b[..n], c);
    }
  }

  /** Scaling distributes over the sum. */
  lemma {:induction false} SumScale(v: Vector, c: real)
    ensures Sum(Scale(v, c)) == c * Sum(v)
  {
    if v != [] {
      var n := |v| - 1;
      ScalePrefix(v, c, n);
      SumScale(v[..n], c);
    }
  }

  /** The squares of a scaled vector scale by the square of the factor. */
  lemma {:induction false} SumSqScale(v: Vector, c: real)
    ensures SumSq(Scale(v, c)) == Sq(c) * SumSq(v)
  {
    if v != [] {
      var n := |v| - 1;
      ScalePrefix(v, c, n);
      SumSqScale(v[..n], c);
      assert Sq(v[n] * c) == Sq(c) * Sq(v[n]);
    }
  }
}
