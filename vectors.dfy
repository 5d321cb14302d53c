/** Dense vectors and matrices over the reals, and the few primitives of the
  mathjs library that the models call (`math.dot`, `math.add`, `math.subtract`,
  `math.sum`, `math.distance`, `Math.pow`, `math.sign`, `math.abs`).

  mathjs is not part of this model; these definitions state what its
  primitives compute on well-shaped arguments. Square roots are an
  uninterpreted parameter `sqrt` everywhere: `SoundSqrt` lists the only facts
  about it that any proof uses.
 */
module Vectors {

  type Vector = seq<real>
  type Matrix = seq<Vector>

  /** What `math.log` throws when it is handed `undefined`, a list entry that is not there:
      mathjs's typed functions reject an argument of no accepted type. */
  const LogOfUndefined := "TypeError: Unexpected type of argument in function log"

  /** Sum of the entries, accumulated from the left as the loops of the source do. */
  function Sum(v: Vector): real
  {
    if v == [] then 0.0 else Sum(v[..|v| - 1]) + v[|v| - 1]
  }

  /** `total * (1.0 / n)`, the source's way of dividing by a count. */
  function Scaled(total: real, n: nat): (r: real)
    requires n > 0
    ensures r == total / n as real
  {
    total * (1.0 / n as real)
  }

  /** Inner product `math.dot(a, b)` (also `math.multiply(transpose(a), b)` on vectors). */
  function Dot(a: Vector, b: Vector): real
    requires |a| == |b|
  {
    if a == [] then 0.0 else Dot(a[..|a| - 1], b[..|b| - 1]) + a[|a| - 1] * b[|b| - 1]
  }

  function Add(a: Vector, b: Vector): (r: Vector)
    requires |a| == |b|
    ensures |r| == |a|
  {
    seq(|a|, i requires 0 <= i < |a| => a[i] + b[i])
  }

  function Sub(a: Vector, b: Vector): (r: Vector)
    requires |a| == |b|
    ensures |r| == |a|
  {
    seq(|a|, i requires 0 <= i < |a| => a[i] - b[i])
  }

  /** The vector of `n` zeros. */
  function Zeros(n: nat): (r: Vector)
    ensures |r| == n
  {
    seq(n, _ => 0.0)
  }

  /** The square of `x`. It is written as the product of `x` and `Copy(x)` so
      that the solver sees a product of two terms: it reasons poorly about a
      literal real product of a term with itself. */
  function Sq(x: real): real
  {
    x * Copy(x)
  }

  function Copy(x: real): real
  {
    x
  }

  /** Squared Euclidean norm. */
  function SumSq(v: Vector): real
  {
    if v == [] then 0.0 else SumSq(v[..|v| - 1]) + Sq(v[|v| - 1])
  }

  function SqDist(a: Vector, b: Vector): real
    requires |a| == |b|
  {
    SumSq(Sub(a, b))
  }

  /** `math.distance(a, b)`: the Euclidean distance. */
  function Distance(a: Vector, b: Vector, sqrt: real -> real): real
    requires |a| == |b|
  {
    sqrt(SqDist(a, b))
  }

  /** `math.norm(v, 2)`. */
  function Norm(v: Vector, sqrt: real -> real): real
  {
    sqrt(SumSq(v))
  }

  /** What the proofs assume of the square root: it is the non-negative root. */
  ghost predicate SoundSqrt(sqrt: real -> real)
  {
    forall y: real {:trigger sqrt(y)} :: y >= 0.0 ==> sqrt(y) >= 0.0 && Sq(sqrt(y)) == y
  }

  /** `Math.pow(x, n)` for a natural exponent; `Math.pow(x, 0)` is 1 for every x. */
  function Pow(x: real, n: nat): real
  {
    if n == 0 then 1.0 else Pow(x, n - 1) * x
  }

  function Abs(x: real): real
  {
    if x < 0.0 then -x else x
  }

  /** `math.sign`: -1, 0 or 1. */
  function Sign(x: real): real
  {
    if x < 0.0 then -1.0 else if x > 0.0 then 1.0 else 0.0
  }

  /** `math.abs` of a vector: the entry-wise absolute values. */
  function AbsAll(v: Vector): (r: Vector)
    ensures |r| == |v|
  {
    seq(|v|, i requires 0 <= i < |v| => Abs(v[i]))
  }

  /** The running sum of the source's gradient loops: the first vector, then `math.add`
      of each further one. */
  function VecSum(vs: seq<Vector>): (r: Vector)
    requires vs != [] && forall i :: 0 <= i < |vs| ==> |vs[i]| == |vs[0]|
    ensures |r| == |vs[0]|
  {
    if |vs| == 1 then vs[0] else Add(VecSum(vs[..|vs| - 1]), vs[|vs| - 1])
  }

  /** A sum of zero vectors is the zero vector. */
  lemma {:induction false} VecSumZeros(vs: seq<Vector>, m: nat)
    requires vs != [] && forall i :: 0 <= i < |vs| ==> vs[i] == Zeros(m)
    ensures VecSum(vs) == Zeros(m)
  {
    if |vs| > 1 {
      VecSumZeros(vs[..|vs| - 1], m);
    }
  }

  /** Every row has `cols` entries. */
  ghost predicate IsRect(m: Matrix, cols: nat)
  {
    forall i :: 0 <= i < |m| ==> |m[i]| == cols
  }

  lemma {:induction false} DotComm(a: Vector, b: Vector)
    requires |a| == |b|
    ensures Dot(a, b) == Dot(b, a)
  {
    if a != [] {
      DotComm(a[..|a| - 1], b[..|b| - 1]);
    }
  }

  lemma {:induction false} SumZeros(n: nat)
    ensures Sum(Zeros(n)) == 0.0
  {
    if n > 0 {
      assert Zeros(n)[..n - 1] == Zeros(n - 1);
      SumZeros(n - 1);
    }
  }

  /** Adding `a` to one entry adds `a` to the sum. */
  lemma {:induction false} SumUpdate(v: Vector, x: nat, a: real)
    requires x < |v|
    ensures Sum(v[x := v[x] + a]) == Sum(v) + a
  {
    var n := |v| - 1;
    var w := v[x := v[x] + a];
    if x < n {
      assert w[..n] == v[..n][x := v[x] + a];
      SumUpdate(v[..n], x, a);
    } else {
      assert w[..n] == v[..n];
    }
  }

  lemma {:induction false} SumSqNonNeg(v: Vector)
    ensures SumSq(v) >= 0.0
  {
    if v != [] {
      SumSqNonNeg(v[..|v| - 1]);
      SquarePositive(v[|v| - 1]);
    }
  }

  /** The inner product of a vector with itself is its squared norm. */
  lemma {:induction false} DotSelf(v: Vector)
    ensures Dot(v, v) == SumSq(v)
  {
    if v != [] {
      DotSelf(v[..|v| - 1]);
    }
  }

  lemma {:induction false} DotAddLeft(a: Vector, b: Vector, c: Vector)
    requires |a| == |b| == |c|
    ensures Dot(Add(a, b), c) == Dot(a, c) + Dot(b, c)
  {
    if a != [] {
      var n := |a| - 1;
      assert Add(a, b)[..n] == Add(a[..n], b[..n]);
      DotAddLeft(a[..n], b[..n], c[..n]);
    }
  }

  lemma {:induction false} SumSqZeroIffZero(v: Vector)
    ensures SumSq(v) == 0.0 <==> v == Zeros(|v|)
  {
    if v != [] {
      var n := |v| - 1;
      SumSqNonNeg(v[..n]);
      SumSqZeroIffZero(v[..n]);
      SquarePositive(v[n]);
      assert v == v[..n] + [v[n]];
      if v == Zeros(|v|) {
        assert v[..n] == Zeros(n);
      }
    }
  }

  lemma SqDistSelf(a: Vector)
    ensures SqDist(a, a) == 0.0
  {
    assert Sub(a, a) == Zeros(|a|);
    SumSqZeroIffZero(Sub(a, a));
  }

  lemma {:induction false} SqDistComm(a: Vector, b: Vector)
    requires |a| == |b|
    ensures SqDist(a, b) == SqDist(b, a)
  {
    if a != [] {
      var n := |a| - 1;
      assert Sub(a, b)[..n] == Sub(a[..n], b[..n]);
      assert Sub(b, a)[..n] == Sub(b[..n], a[..n]);
      SqDistComm(a[..n], b[..n]);
    }
  }

  /** Two non-negative reals with the same square are equal. */
  lemma SquareInjective(u: real, v: real)
    requires u >= 0.0 && v >= 0.0 && Sq(u) == Sq(v)
    ensures u == v
  {
    if u < v {
      MulStrict(u, v);
    } else if v < u {
      MulStrict(v, u);
    }
  }

  lemma MulStrict(u: real, v: real)
    requires 0.0 <= u < v
    ensures Sq(u) < Sq(v)
  {
    if u == 0.0 {
      SquarePositive(v);
    } else {
      MulStrictMono(u, v, u);
      MulStrictMono(u, v, v);
    }
  }

  lemma MulMono(x: real, y: real, z: real)
    requires x <= y && z >= 0.0
    ensures x * z <= y * z
  {
  }

  lemma MulStrictMono(x: real, y: real, z: real)
    requires x < y && z > 0.0
    ensures x * z < y * z
  {
    assert (y - x) * z > 0.0;
  }

  lemma SquarePositive(x: real)
    ensures Sq(x) >= 0.0
    ensures x != 0.0 ==> Sq(x) > 0.0
  {
  }
}
