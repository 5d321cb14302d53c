/** The kernel support vector machine `vml_SVM`, trained in its dual form.

  `FitStep` moves one dual coefficient (the sample's index is the random choice,
  a parameter here) and clamps it to `[0, C]`; `GetSupportVectors` keeps the
  points whose coefficient is not 0; `ComputeError` is the dual objective and
  `Predict` the sign of the kernel expansion over the support vectors. The
  kernel is the model's `kernel` field, an arbitrary function of two points.
 */
module Svm {
  import opened Vectors
  import opened Wrappers
  import opened Seqs
  import Utils

  /** The indices, in increasing order, of the non-zero coefficients. */
  function NonZero(alphas: seq<real>): (r: seq<nat>)
    ensures forall k :: 0 <= k < |r| ==> r[k] < |alphas|
  {
    if alphas == [] then []
    else
      var n := |alphas| - 1;
      NonZero(alphas[..n]) + (if alphas[n] != 0.0 then [n] else [])
  }

  /** `NonZero` lists exactly the indices of the non-zero coefficients, in increasing order. */
  lemma {:induction false} NonZeroFacts(alphas: seq<real>)
    ensures forall a, b :: 0 <= a < b < |NonZero(alphas)| ==> NonZero(alphas)[a] < NonZero(alphas)[b]
    ensures forall i :: 0 <= i < |alphas| ==> (i in NonZero(alphas) <==> alphas[i] != 0.0)
  {
    if alphas != [] {
      var n := |alphas| - 1;
      var p := alphas[..n];
      NonZeroFacts(p);
      forall i | 0 <= i < n
        ensures (i in NonZero(alphas) <==> alphas[i] != 0.0)
      {
        assert p[i] == alphas[i];
      }
    }
  }

  /** With every coefficient 0 there is no support vector. */
  lemma {:induction false} NonZeroOfZeros(n: nat)
    ensures NonZero(Zeros(n)) == []
  {
    if n > 0 {
      assert Zeros(n)[..n - 1] == Zeros(n - 1);
      NonZeroOfZeros(n - 1);
    }
  }

  /** One term `alpha * y * k` of a kernel expansion. */
  function Term(alpha: real, y: real, k: real): real
  {
    alpha * y * k
  }

  /** The kernel expansion `sum_i alpha_i * label_i * k_i`, accumulated from the left. */
  function Expansion(alphas: seq<real>, labels: seq<real>, ks: seq<real>): real
    requires |alphas| == |labels| == |ks|
  {
    if alphas == [] then 0.0
    else
      var n := |alphas| - 1;
      Expansion(alphas[..n], labels[..n], ks[..n]) + Term(alphas[n], labels[n], ks[n])
  }

  /** The kernel values `kernel(x_i, p)` of the points against a second argument `p`. */
  function KernelsTo(xs: seq<Vector>, p: Vector, kernel: (Vector, Vector) -> real): (r: seq<real>)
    ensures |r| == |xs|
  {
    seq(|xs|, i requires 0 <= i < |xs| => kernel(xs[i], p))
  }

  /** The kernel values `kernel(p, x_i)` of a first argument `p` against the points. */
  function KernelsFrom(p: Vector, xs: seq<Vector>, kernel: (Vector, Vector) -> real): (r: seq<real>)
    ensures |r| == |xs|
  {
    seq(|xs|, i requires 0 <= i < |xs| => kernel(p, xs[i]))
  }

  /** Leaving out the zero coefficients does not change a kernel expansion: the sum over
      the support vectors is the sum over all points. */
  lemma {:induction false} ExpansionOverSupport(alphas: seq<real>, labels: seq<real>, ks: seq<real>)
    requires |alphas| == |labels| == |ks|
    ensures var idx := NonZero(alphas);
      Expansion(Pick(alphas, idx), Pick(labels, idx), Pick(ks, idx)) == Expansion(alphas, labels, ks)
  {
    if alphas != [] {
      var n := |alphas| - 1;
      var a, l, k := alphas[..n], labels[..n], ks[..n];
      ExpansionOverSupport(a, l, k);
      var idx := NonZero(a);
      var pa, pl, pk := Pick(a, idx), Pick(l, idx), Pick(k, idx);
      assert Expansion(alphas, labels, ks) == Expansion(a, l, k) + Term(alphas[n], labels[n], ks[n]);
      PickAgree(a, alphas, idx);
      PickAgree(l, labels, idx);
      PickAgree(k, ks, idx);
      if alphas[n] != 0.0 {
        assert NonZero(alphas) == idx + [n];
        PickSnoc(alphas, idx, n);
        PickSnoc(labels, idx, n);
        PickSnoc(ks, idx, n);
        ExpansionSnoc(pa, pl, pk, alphas[n], labels[n], ks[n]);
      } else {
        assert NonZero(alphas) == idx;
        assert Term(alphas[n], labels[n], ks[n]) == 0.0;
      }
    }
  }

  /** One more term at the end adds that term. */
  lemma ExpansionSnoc(alphas: seq<real>, labels: seq<real>, ks: seq<real>, a: real, y: real, k: real)
    requires |alphas| == |labels| == |ks|
    ensures Expansion(alphas + [a], labels + [y], ks + [k]) == Expansion(alphas, labels, ks) + Term(a, y, k)
  {
    assert (alphas + [a])[..|alphas|] == alphas;
    assert (labels + [y])[..|alphas|] == labels;
    assert (ks + [k])[..|alphas|] == ks;
  }

  /** An expansion with every coefficient 0 is 0. */
  lemma {:induction false} ExpansionOfZeros(labels: seq<real>, ks: seq<real>)
    requires |labels| == |ks|
    ensures Expansion(Zeros(|labels|), labels, ks) == 0.0
  {
    if labels != [] {
      var n := |labels| - 1;
      assert Zeros(|labels|)[..n] == Zeros(n);
      ExpansionOfZeros(labels[..n], ks[..n]);
    }
  }

  /** One term `alpha_i * alpha_j * label_i * label_j * kernel(x_i, x_j)` of the dual objective. */
  function PairTerm(alphas: seq<real>, labels: seq<real>, data: seq<Vector>, kernel: (Vector, Vector) -> real, i: nat, j: nat): real
    requires i < |alphas| && j < |alphas| && |labels| == |alphas| && |data| == |alphas|
  {
    alphas[i] * alphas[j] * labels[i] * labels[j] * kernel(data[i], data[j])
  }

  /** The terms of row `i` for the columns below `m`, accumulated from the left. */
  function RowSum(alphas: seq<real>, labels: seq<real>, data: seq<Vector>, kernel: (Vector, Vector) -> real, i: nat, m: nat): real
    requires i < |alphas| && m <= |alphas| && |labels| == |alphas| && |data| == |alphas|
  {
    if m == 0 then 0.0 else RowSum(alphas, labels, data, kernel, i, m - 1) + PairTerm(alphas, labels, data, kernel, i, m - 1)
  }

  /** The double sum over the rows below `n`, in the order of the source's nested loops. */
  function DoubleSum(alphas: seq<real>, labels: seq<real>, data: seq<Vector>, kernel: (Vector, Vector) -> real, n: nat): real
    requires n <= |alphas| && |labels| == |alphas| && |data| == |alphas|
  {
    if n == 0 then 0.0 else DoubleSum(alphas, labels, data, kernel, n - 1) + RowSum(alphas, labels, data, kernel, n - 1, |alphas|)
  }

  /** What `ComputeError` returns: the dual objective `sum_i alpha_i - 1/2 sum_i sum_j
      alpha_i alpha_j y_i y_j k(x_i, x_j)`, the double sum scaled by -0.5 and the sum of
      the coefficients added. */
  function DualObjective(alphas: seq<real>, labels: seq<real>, data: seq<Vector>, kernel: (Vector, Vector) -> real): real
    requires |labels| == |alphas| && |data| == |alphas|
  {
    DoubleSum(alphas, labels, data, kernel, |alphas|) * -0.5 + Sum(alphas)
  }

  lemma {:induction false} RowSumOfZeros(n: nat, labels: seq<real>, data: seq<Vector>, kernel: (Vector, Vector) -> real, i: nat, m: nat)
    requires i < n && m <= n && |labels| == n && |data| == n
    ensures RowSum(Zeros(n), labels, data, kernel, i, m) == 0.0
  {
    if m > 0 {
      RowSumOfZeros(n, labels, data, kernel, i, m - 1);
    }
  }

  lemma {:induction false} DoubleSumOfZeros(n: nat, labels: seq<real>, data: seq<Vector>, kernel: (Vector, Vector) -> real, k: nat)
    requires k <= n && |labels| == n && |data| == n
    ensures DoubleSum(Zeros(n), labels, data, kernel, k) == 0.0
  {
    if k > 0 {
      DoubleSumOfZeros(n, labels, data, kernel, k - 1);
      RowSumOfZeros(n, labels, data, kernel, k - 1, n);
    }
  }

  /** Right after `Init`, with every coefficient 0, the dual objective is 0. */
  lemma DualObjectiveOfZeros(labels: seq<real>, data: seq<Vector>, kernel: (Vector, Vector) -> real)
    requires |data| == |labels|
    ensures DualObjective(Zeros(|labels|), labels, data, kernel) == 0.0
  {
    DoubleSumOfZeros(|labels|, labels, data, kernel, |labels|);
    SumZeros(|labels|);
  }

  /** `math.min(C, math.max(0, a))`. */
  function Clamp(a: real, c: real): (r: real)
    ensures c >= 0.0 ==> 0.0 <= r <= c
    ensures 0.0 <= a <= c ==> r == a
  {
    var lower := if 0.0 < a then a else 0.0;
    if c < lower then c else lower
  }

  /** The coefficient `FitStep` writes at the sample `i`: `alpha_i + lambda (1 - y_i f_i)`,
      where `f_i` is the kernel expansion at `x_i`, clamped to `[0, C]`. */
  function Updated(alphas: seq<real>, labels: seq<real>, data: seq<Vector>, kernel: (Vector, Vector) -> real, c: real, lambda: real, i: nat): real
    requires |labels| == |alphas| && |data| == |alphas| && i < |alphas|
  {
    var f := Expansion(alphas, labels, KernelsFrom(data[i], data, kernel));
    Clamp(alphas[i] + lambda * (1.0 - labels[i] * f), c)
  }

  /** The accumulating loop `fSum += alpha_i * y_i * k_i` of `FitStep` and `Predict`,
      over the kernel values `k_i` they compute. */
  method SumExpansion(alphas: seq<real>, labels: seq<real>, ks: seq<real>) returns (sum: real)
    requires |alphas| == |labels| == |ks|
    ensures sum == Expansion(alphas, labels, ks)
  {
    sum := 0.0;
    var i := 0;
    while i != |alphas|
      invariant 0 <= i <= |alphas|
      invariant sum == Expansion(alphas[..i], labels[..i], ks[..i])
    {
      assert alphas[..i + 1][..i] == alphas[..i];
      assert labels[..i + 1][..i] == labels[..i];
      assert ks[..i + 1][..i] == ks[..i];
      sum := sum + Term(alphas[i], labels[i], ks[i]);
      i := i + 1;
    }
    assert alphas[..i] == alphas && labels[..i] == labels && ks[..i] == ks;
  }

  /** The loop of `GetSupportVectors`: the points, labels and coefficients whose
      coefficient is not 0, pushed in index order. */
  method SupportOf(data: seq<Vector>, labels: seq<real>, alphas: seq<real>) returns (vs: seq<Vector>, ls: seq<real>, cs: seq<real>)
    requires |alphas| == |data| && |labels| == |data|
    ensures vs == Pick(data, NonZero(alphas)) && ls == Pick(labels, NonZero(alphas)) && cs == Pick(alphas, NonZero(alphas))
  {
    vs, ls, cs := [], [], [];
    var i := 0;
    while i != |alphas|
      invariant 0 <= i <= |alphas|
      invariant vs == Pick(data, NonZero(alphas[..i]))
      invariant ls == Pick(labels, NonZero(alphas[..i]))
      invariant cs == Pick(alphas, NonZero(alphas[..i]))
    {
      assert alphas[..i + 1][..i] == alphas[..i];
      if alphas[i] != 0.0 {
        PickSnoc(data, NonZero(alphas[..i]), i);
        PickSnoc(labels, NonZero(alphas[..i]), i);
        PickSnoc(alphas, NonZero(alphas[..i]), i);
        vs := vs + [data[i]];
        ls := ls + [labels[i]];
        cs := cs + [alphas[i]];
      }
      i := i + 1;
    }
    assert alphas[..|alphas|] == alphas;
  }

  class SvmModel {
    var kernel: (Vector, Vector) -> real
    var alphas: seq<real>
    var c: real
    var suppVecs: seq<Vector>
    var suppLabels: seq<real>
    var suppAlphas: seq<real>
    var ready: bool
    var data: seq<Vector>
    var labels: seq<real>

    /** One coefficient and one label per point, and three parallel support-vector lists. */
    ghost predicate Valid()
      reads this
    {
      |alphas| == |data| && |labels| == |data| &&
      |suppLabels| == |suppVecs| && |suppAlphas| == |suppVecs|
    }

    /** The support-vector lists hold exactly the points, labels and coefficients whose
        coefficient is not 0, in index order. */
    ghost predicate SupportCurrent()
      reads this
      requires Valid()
    {
      var idx := NonZero(alphas);
      suppVecs == Pick(data, idx) && suppLabels == Pick(labels, idx) && suppAlphas == Pick(alphas, idx)
    }

    /** The model with every list empty. The kernel, which the source leaves for its
        caller to assign, is given here; the unset `iC` is 0. */
    constructor(k: (Vector, Vector) -> real)
      ensures Valid() && SupportCurrent()
      ensures kernel == k && alphas == [] && c == 0.0 && !ready && data == [] && labels == []
      ensures suppVecs == [] && suppLabels == [] && suppAlphas == []
    {
      kernel := k;
      alphas := [];
      c := 0.0;
      suppVecs := [];
      suppLabels := [];
      suppAlphas := [];
      ready := false;
      data := [];
      labels := [];
    }

    /** `Init(lData, lLabels, iC)`: stores the training set and `C`, puts every coefficient
        to 0 and becomes ready. */
    method Init(d: seq<Vector>, l: seq<real>, cc: real)
      requires Valid() && |l| == |d|
      modifies this
      ensures Valid()
      ensures data == d && labels == l && c == cc && ready
      ensures alphas == Zeros(|d|)
      ensures DualObjective(alphas, labels, data, kernel) == 0.0
      ensures kernel == old(kernel) && suppVecs == old(suppVecs) && suppLabels == old(suppLabels) && suppAlphas == old(suppAlphas)
    {
      data := d;
      labels := l;
      c := cc;
      InitAlphas();
      ready := true;
      DualObjectiveOfZeros(labels, data, kernel);
    }

    /** `IsReady()`. */
    function IsReady(): (r: bool)
      reads this
      ensures r <==> ready
    {
      ready
    }

    /** `InitAlphas()`: one coefficient 0 per point. */
    method InitAlphas()
      modifies this
      ensures alphas == Zeros(|data|)
      ensures data == old(data) && labels == old(labels) && c == old(c) && ready == old(ready) && kernel == old(kernel)
      ensures suppVecs == old(suppVecs) && suppLabels == old(suppLabels) && suppAlphas == old(suppAlphas)
    {
      alphas := Utils.FillList(|data|, 0.0);
    }

    /** `GetSupportVectors()`: rebuilds the three lists from the coefficients that are not 0. */
    method GetSupportVectors()
      requires Valid()
      modifies this
      ensures Valid() && SupportCurrent()
      ensures alphas == old(alphas) && data == old(data) && labels == old(labels)
      ensures c == old(c) && ready == old(ready) && kernel == old(kernel)
    {
      var vs, ls, cs := SupportOf(data, labels, alphas);
      suppVecs, suppLabels, suppAlphas := vs, ls, cs;
    }

    /** `ComputeError()`: the dual objective of the current coefficients. */
    method ComputeError() returns (e: real)
      requires Valid()
      ensures e == DualObjective(alphas, labels, data, kernel)
    {
      var n := |data|;
      e := 0.0;
      var sumAlphas := 0.0;
      var i := 0;
      while i != n
        invariant 0 <= i <= n
        invariant e == DoubleSum(alphas, labels, data, kernel, i)
        invariant sumAlphas == Sum(alphas[..i])
      {
        assert alphas[..i + 1][..i] == alphas[..i];
        sumAlphas := sumAlphas + alphas[i];
        var j := 0;
        while j != n
          invariant 0 <= j <= n
          invariant e == DoubleSum(alphas, labels, data, kernel, i) + RowSum(alphas, labels, data, kernel, i, j)
        {
          e := e + PairTerm(alphas, labels, data, kernel, i, j);
          j := j + 1;
        }
        i := i + 1;
      }
      assert alphas[..n] == alphas;
      e := e * -0.5;
      e := e + sumAlphas;
    }

    /** `Predict(vecPoint, bRecomputeSuppVecs)`: the support vectors are rebuilt unless the
        flag is `false` (`None` is the flag left `undefined`); the result is `SignToProbs`
        of the kernel expansion over the support vectors. */
    method Predict(p: Vector, recompute: Option<bool>) returns (r: seq<real>)
      requires Valid()
      modifies this
      ensures Valid()
      ensures alphas == old(alphas) && data == old(data) && labels == old(labels)
      ensures c == old(c) && ready == old(ready) && kernel == old(kernel)
      ensures recompute != Some(false) ==> SupportCurrent()
      ensures recompute == Some(false) ==> suppVecs == old(suppVecs) && suppLabels == old(suppLabels) && suppAlphas == old(suppAlphas)
      ensures r == Utils.SignToProbs(Expansion(suppAlphas, suppLabels, KernelsTo(suppVecs, p, kernel)))
    {
      if recompute != Some(false) {
        GetSupportVectors();
      }
      var sum := SumExpansion(suppAlphas, suppLabels, KernelsTo(suppVecs, p, kernel));
      if sum < 0.0 {
        r := [0.0, 1.0];
      } else if sum > 0.0 {
        r := [1.0, 0.0];
      } else {
        r := [0.5, 0.5];
      }
    }

    /** `FitStep(fLambda)` on the sample `index` (`Math.floor(Math.random() * n)`): only the
        sample's coefficient changes, to `Updated`, which lies in `[0, C]` when `C >= 0`. */
    method FitStep(lambda: real, index: nat)
      requires Valid() && index < |data|
      modifies this
      ensures data == old(data) && labels == old(labels) && c == old(c) && ready == old(ready) && kernel == old(kernel)
      ensures Valid()
      ensures alphas == old(alphas)[index := Updated(old(alphas), labels, data, kernel, c, lambda, index)]
      ensures c >= 0.0 ==> 0.0 <= alphas[index] <= c
      ensures suppVecs == old(suppVecs) && suppLabels == old(suppLabels) && suppAlphas == old(suppAlphas)
    {
      var input := data[index];
      var y := labels[index];
      var alpha := alphas[index];
      var sum := SumExpansion(alphas, labels, KernelsFrom(input, data, kernel));
      var a := alpha + lambda * (1.0 - y * sum);
      assert Clamp(a, c) == Updated(alphas, labels, data, kernel, c, lambda, index);
      a := if 0.0 < a then a else 0.0;
      a := if c < a then c else a;
      alphas := alphas[index := a];
    }
  }

  /** `Predict` needs only the support vectors: once they are current, the expansion over
      them equals the expansion over every point. */
  lemma PredictOverSupport(alphas: seq<real>, labels: seq<real>, data: seq<Vector>, p: Vector, kernel: (Vector, Vector) -> real)
    requires |alphas| == |data| && |labels| == |data|
    ensures var idx := NonZero(alphas);
      Expansion(Pick(alphas, idx), Pick(labels, idx), KernelsTo(Pick(data, idx), p, kernel)) ==
      Expansion(alphas, labels, KernelsTo(data, p, kernel))
  {
    var idx := NonZero(alphas);
    var ks := KernelsTo(data, p, kernel);
    assert KernelsTo(Pick(data, idx), p, kernel) == Pick(ks, idx);
    ExpansionOverSupport(alphas, labels, ks);
  }

  /** With every coefficient 0 there is no support vector and `Predict` returns `[0.5, 0.5]`. */
  lemma PredictOfZeros(labels: seq<real>, data: seq<Vector>, p: Vector, kernel: (Vector, Vector) -> real)
    requires |labels| == |data|
    ensures NonZero(Zeros(|data|)) == []
    ensures Utils.SignToProbs(Expansion(Zeros(|data|), labels, KernelsTo(data, p, kernel))) == [0.5, 0.5]
  {
    NonZeroOfZeros(|data|);
    ExpansionOfZeros(labels, KernelsTo(data, p, kernel));
  }
}
