/** The evaluation metrics `vml_RegressionEvaluation` and `vml_ClassifierEvaluation`.

  Both hold a data set, its labels and a model. The model is its `Predict`
  function: a number per point for regression, a list of class scores per point
  for classification. Every metric is a loop over the samples. A classifier's
  predicted class is `ArgMax` of its scores, which throws "Empty list" on an
  empty score list. `NaN` (a count divided by zero, the logarithm of `undefined`)
  is `None`.
 */
module ModelEvaluation {
  import opened Vectors
  import opened Wrappers
  import Utils
  import Seqs

  /** `k / n` as the metrics compute it; `NaN` when `n` is 0. */
  function Frac(k: nat, n: nat): Option<real>
  {
    if n == 0 then None else Some(k as real / n as real)
  }

  /** A count out of a non-zero total is a fraction in `[0, 1]`; it is 1 exactly when
      every item was counted. */
  lemma FracBounds(k: nat, n: nat)
    requires k <= n && n > 0
    ensures Frac(k, n).Some?
    ensures 0.0 <= Frac(k, n).value <= 1.0
    ensures Frac(k, n).value == 1.0 <==> k == n
  {
    var q := k as real / n as real;
    assert q * n as real == k as real;
  }

  // ---------------------------------------------------------------------------
  // Regression metrics
  // ---------------------------------------------------------------------------

  /** The sum of the squared errors `(Predict(x_i) - t_i)^2` of the first `n` samples. */
  function SqErr(predict: Vector -> real, data: seq<Vector>, labels: seq<real>, n: nat): real
    requires n <= |data| && n <= |labels|
  {
    if n == 0 then 0.0 else SqErr(predict, data, labels, n - 1) + Sq(predict(data[n - 1]) - labels[n - 1])
  }

  lemma {:induction false} SqErrZeroIff(predict: Vector -> real, data: seq<Vector>, labels: seq<real>, n: nat)
    requires n <= |data| && n <= |labels|
    ensures SqErr(predict, data, labels, n) >= 0.0
    ensures SqErr(predict, data, labels, n) == 0.0 <==> forall i :: 0 <= i < n ==> predict(data[i]) == labels[i]
  {
    if n > 0 {
      SqErrZeroIff(predict, data, labels, n - 1);
      var e := predict(data[n - 1]) - labels[n - 1];
      SquarePositive(e);
      if Sq(e) == 0.0 {
        SquareInjective(e, 0.0);
      }
    }
  }

  /** What `RMSE()` returns: `sqrt(sum / n)`, `NaN` for an empty data set. */
  function RmseOf(predict: Vector -> real, data: seq<Vector>, labels: seq<real>, sqrt: real -> real): Option<real>
    requires |labels| == |data|
  {
    if |data| == 0 then None else Some(sqrt(Scaled(SqErr(predict, data, labels, |data|), |data|)))
  }

  /** With a sound square root the RMSE of a non-empty data set is non-negative, and 0
      exactly when every prediction equals its label. */
  lemma RmseZeroIff(predict: Vector -> real, data: seq<Vector>, labels: seq<real>, sqrt: real -> real)
    requires |labels| == |data| && |data| > 0 && SoundSqrt(sqrt)
    ensures RmseOf(predict, data, labels, sqrt).Some?
    ensures RmseOf(predict, data, labels, sqrt).value >= 0.0
    ensures RmseOf(predict, data, labels, sqrt).value == 0.0 <==> forall i :: 0 <= i < |data| ==> predict(data[i]) == labels[i]
  {
    var s := SqErr(predict, data, labels, |data|);
    SqErrZeroIff(predict, data, labels, |data|);
    var m := Scaled(s, |data|);
    assert m >= 0.0;
    assert m == 0.0 <==> s == 0.0;
    var root := sqrt(m);
    assert Sq(root) == m;
    if root == 0.0 {
      assert Sq(root) == 0.0;
    }
  }

  /** No label among the samples is 0. */
  predicate NoZeroLabel(labels: seq<real>, n: nat)
    requires n <= |labels|
  {
    forall i :: 0 <= i < n ==> labels[i] != 0.0
  }

  /** The sum of `|(t_i - Predict(x_i)) / t_i|` over the first `n` samples. */
  function AbsPercErr(predict: Vector -> real, data: seq<Vector>, labels: seq<real>, n: nat): real
    requires n <= |data| && n <= |labels| && NoZeroLabel(labels, n)
  {
    if n == 0 then 0.0
    else AbsPercErr(predict, data, labels, n - 1) + Abs((labels[n - 1] - predict(data[n - 1])) / labels[n - 1])
  }

  lemma {:induction false} AbsPercErrNonNeg(predict: Vector -> real, data: seq<Vector>, labels: seq<real>, n: nat)
    requires n <= |data| && n <= |labels| && NoZeroLabel(labels, n)
    ensures AbsPercErr(predict, data, labels, n) >= 0.0
  {
    if n > 0 {
      AbsPercErrNonNeg(predict, data, labels, n - 1);
    }
  }

  /** What `MAPE()` returns: -1 as soon as a label is 0; otherwise the mean absolute
      percentage error, `NaN` for an empty data set. */
  function MapeOf(predict: Vector -> real, data: seq<Vector>, labels: seq<real>): Option<real>
    requires |labels| == |data|
  {
    if !NoZeroLabel(labels, |labels|) then Some(-1.0)
    else if |data| == 0 then None
    else Some(Scaled(AbsPercErr(predict, data, labels, |data|), |data|))
  }

  /** The MAPE is -1 exactly when some label is 0, and otherwise, on a non-empty data
      set, a non-negative number. */
  lemma MapeMinusOneIff(predict: Vector -> real, data: seq<Vector>, labels: seq<real>)
    requires |labels| == |data|
    ensures MapeOf(predict, data, labels) == Some(-1.0) <==> exists i :: 0 <= i < |labels| && labels[i] == 0.0
    ensures NoZeroLabel(labels, |labels|) && |data| > 0 ==> MapeOf(predict, data, labels).Some? && MapeOf(predict, data, labels).value >= 0.0
  {
    if NoZeroLabel(labels, |labels|) && |data| > 0 {
      AbsPercErrNonNeg(predict, data, labels, |data|);
    }
  }

  /** Whether a sample counts as almost correct: its relative error is below the
      threshold. For a label 0 the quotient is `Infinity` or `NaN`, which never is. */
  predicate AlmostCorrect(target: real, pred: real, threshold: real)
  {
    target != 0.0 && Abs((target - pred) / target) < threshold
  }

  /** The number of almost correct samples among the first `n`. */
  function AcpCount(predict: Vector -> real, data: seq<Vector>, labels: seq<real>, threshold: real, n: nat): (r: nat)
    requires n <= |data| && n <= |labels|
    ensures r <= n
  {
    if n == 0 then 0
    else AcpCount(predict, data, labels, threshold, n - 1) + (if AlmostCorrect(labels[n - 1], predict(data[n - 1]), threshold) then 1 else 0)
  }

  /** An almost correct sample has a prediction within `threshold * |t|` of its label. */
  lemma AlmostCorrectMeansClose(target: real, pred: real, threshold: real)
    requires AlmostCorrect(target, pred, threshold)
    ensures Abs(target - pred) < threshold * Abs(target)
  {
    var q := (target - pred) / target;
    assert target - pred == q * target;
    if target > 0.0 {
      if q >= 0.0 {
        assert q * target < threshold * target;
      } else {
        assert -q * target < threshold * target;
      }
    } else {
      if q >= 0.0 {
        assert Abs(target - pred) == q * -target;
        assert q * -target < threshold * -target;
      } else {
        assert Abs(target - pred) == -q * -target;
        assert -q * -target < threshold * -target;
      }
    }
  }

  datatype RegressionMetrics = RegressionMetrics(rmse: Option<real>, mape: Option<real>, acp: Option<real>)

  class RegressionEvaluation {
    const data: seq<Vector>
    const labels: seq<real>
    const predict: Vector -> real

    /** One label per sample. */
    ghost predicate Valid()
    {
      |labels| == |data|
    }

    /** `new vml_RegressionEvaluation(lData, lLabels, oModel)` with the model's `Predict`. */
    constructor(d: seq<Vector>, l: seq<real>, p: Vector -> real)
      ensures data == d && labels == l && predict == p
    {
      data := d;
      labels := l;
      predict := p;
    }

    /** `RMSE()`. */
    method Rmse(sqrt: real -> real) returns (r: Option<real>)
      requires Valid()
      ensures r == RmseOf(predict, data, labels, sqrt)
    {
      var sum := 0.0;
      var i := 0;
      while i != |data|
        invariant 0 <= i <= |data| && sum == SqErr(predict, data, labels, i)
      {
        sum := sum + Sq(predict(data[i]) - labels[i]);
        i := i + 1;
      }
      if |data| == 0 {
        return None;
      }
      r := Some(sqrt(Scaled(sum, |data|)));
    }

    /** `MAPE()`. */
    method Mape() returns (r: Option<real>)
      requires Valid()
      ensures r == MapeOf(predict, data, labels)
    {
      var sum := 0.0;
      var i := 0;
      while i != |data|
        invariant 0 <= i <= |data| && NoZeroLabel(labels, i) && sum == AbsPercErr(predict, data, labels, i)
      {
        var target := labels[i];
        var pred := predict(data[i]);
        if target == 0.0 {
          return Some(-1.0);
        }
        sum := sum + Abs((target - pred) / target);
        i := i + 1;
      }
      if |data| == 0 {
        return None;
      }
      r := Some(Scaled(sum, |data|));
    }

    /** `ACP(fPercThreshold)`: the fraction of almost correct samples. */
    method Acp(threshold: real) returns (r: Option<real>)
      requires Valid()
      ensures r == Frac(AcpCount(predict, data, labels, threshold, |data|), |data|)
      ensures |data| > 0 ==> r.Some? && 0.0 <= r.value <= 1.0
    {
      var count := 0;
      var i := 0;
      while i != |data|
        invariant 0 <= i <= |data| && count == AcpCount(predict, data, labels, threshold, i)
      {
        var target := labels[i];
        var pred := predict(data[i]);
        if target != 0.0 && Abs((target - pred) / target) < threshold {
          count := count + 1;
        }
        i := i + 1;
      }
      if |data| == 0 {
        return None;
      }
      FracBounds(count, |data|);
      r := Some(count as real / |data| as real);
    }

    /** `AllMetrics()`: the three metrics, ACP with the fixed threshold 0.1. */
    method AllMetrics(sqrt: real -> real) returns (r: RegressionMetrics)
      requires Valid()
      ensures r.rmse == RmseOf(predict, data, labels, sqrt) && r.mape == MapeOf(predict, data, labels)
      ensures r.acp == Frac(AcpCount(predict, data, labels, 0.1, |data|), |data|)
    {
      var rmse := Rmse(sqrt);
      var mape := Mape();
      var acp := Acp(0.1);
      r := RegressionMetrics(rmse, mape, acp);
    }
  }

  // ---------------------------------------------------------------------------
  // Classification metrics
  // ---------------------------------------------------------------------------

  /** Every one of the first `n` predictions has a score, so `ArgMax` does not throw. */
  predicate Scored(predict: Vector -> seq<real>, data: seq<Vector>, n: nat)
    requires n <= |data|
  {
    forall i :: 0 <= i < n ==> predict(data[i]) != []
  }

  /** The predicted class of a point: the first index of its largest score. */
  function Class(predict: Vector -> seq<real>, x: Vector): nat
    requires predict(x) != []
  {
    Utils.MaxIndex(predict(x))
  }

  /** The number of correctly classified samples among the first `n`. */
  function Hits(predict: Vector -> seq<real>, data: seq<Vector>, labels: seq<nat>, n: nat): (r: nat)
    requires n <= |data| && n <= |labels| && Scored(predict, data, n)
    ensures r <= n
  {
    if n == 0 then 0
    else Hits(predict, data, labels, n - 1) + (if labels[n - 1] == Class(predict, data[n - 1]) then 1 else 0)
  }

  lemma {:induction false} HitsAllIff(predict: Vector -> seq<real>, data: seq<Vector>, labels: seq<nat>, n: nat)
    requires n <= |data| && n <= |labels| && Scored(predict, data, n)
    ensures Hits(predict, data, labels, n) == n <==> forall i :: 0 <= i < n ==> labels[i] == Class(predict, data[i])
  {
    if n > 0 {
      HitsAllIff(predict, data, labels, n - 1);
    }
  }

  /** What `Accuracy()` returns: "Empty list" from `ArgMax` when a prediction has no
      score, otherwise the fraction of correctly classified samples. */
  function AccuracyOf(predict: Vector -> seq<real>, data: seq<Vector>, labels: seq<nat>): Result<Option<real>>
    requires |labels| == |data|
  {
    if !Scored(predict, data, |data|) then Err("Empty list")
    else Ok(Frac(Hits(predict, data, labels, |data|), |data|))
  }

  /** On a non-empty data set with scored predictions the accuracy lies in `[0, 1]`,
      and is 1 exactly when every sample is classified correctly. */
  lemma AccuracyBounds(predict: Vector -> seq<real>, data: seq<Vector>, labels: seq<nat>)
    requires |labels| == |data| && |data| > 0 && Scored(predict, data, |data|)
    ensures AccuracyOf(predict, data, labels).Ok? && AccuracyOf(predict, data, labels).value.Some?
    ensures var a := AccuracyOf(predict, data, labels).value.value;
      0.0 <= a <= 1.0 && (a == 1.0 <==> forall i :: 0 <= i < |data| ==> labels[i] == Class(predict, data[i]))
  {
    FracBounds(Hits(predict, data, labels, |data|), |data|);
    HitsAllIff(predict, data, labels, |data|);
  }

  /** The samples of class `c` among the first `n` that are classified correctly. */
  function Correct(predict: Vector -> seq<real>, data: seq<Vector>, labels: seq<nat>, n: nat, c: nat): (r: nat)
    requires n <= |data| && n <= |labels| && Scored(predict, data, n)
  {
    if n == 0 then 0
    else Correct(predict, data, labels, n - 1, c) + (if labels[n - 1] == c && Class(predict, data[n - 1]) == c then 1 else 0)
  }

  /** One more sample: `Correct` and `Count` grow only for its own label. */
  lemma TallyStep(predict: Vector -> seq<real>, data: seq<Vector>, labels: seq<nat>, i: nat)
    requires i < |data| && i < |labels| && Scored(predict, data, i + 1)
    ensures forall c :: Correct(predict, data, labels, i + 1, c) ==
                        Correct(predict, data, labels, i, c) + (if labels[i] == c && Class(predict, data[i]) == c then 1 else 0)
    ensures forall c :: Seqs.Count(labels[..i + 1], c) == Seqs.Count(labels[..i], c) + (if labels[i] == c then 1 else 0)
  {
    assert labels[..i + 1][..i] == labels[..i];
  }

  /** A class has no more correct samples than samples. */
  lemma {:induction false} CorrectAtMostCount(predict: Vector -> seq<real>, data: seq<Vector>, labels: seq<nat>, n: nat, c: nat)
    requires n <= |data| && n <= |labels| && Scored(predict, data, n)
    ensures Correct(predict, data, labels, n, c) <= Seqs.Count(labels[..n], c)
  {
    if n > 0 {
      CorrectAtMostCount(predict, data, labels, n - 1, c);
      assert labels[..n][..n - 1] == labels[..n - 1];
    }
  }

  /** `s` in reverse order, as `Array.reverse` leaves it. */
  function Reversed<T>(s: seq<T>): (r: seq<T>)
    ensures |r| == |s| && forall k :: 0 <= k < |s| ==> r[k] == s[|s| - 1 - k]
  {
    seq(|s|, k requires 0 <= k < |s| => s[|s| - 1 - k])
  }

  /** What `PerClassAccuracy()` returns: for each class the fraction of its samples
      classified correctly (`NaN` for a class without samples), from the last class to the first. */
  function PerClassOf(predict: Vector -> seq<real>, data: seq<Vector>, labels: seq<nat>, numClass: nat): (r: Result<seq<Option<real>>>)
    requires |labels| == |data|
    ensures r.Ok? ==> |r.value| == numClass
  {
    if !Scored(predict, data, |data|) then Err("Empty list")
    else Ok(Reversed(seq(numClass, c requires 0 <= c < numClass =>
      Frac(Correct(predict, data, labels, |data|, c), Seqs.Count(labels, c)))))
  }

  /** Entry `k` of the per-class accuracies is that of class `numClass - 1 - k`, and
      lies in `[0, 1]` when the class has samples. */
  lemma PerClassEntry(predict: Vector -> seq<real>, data: seq<Vector>, labels: seq<nat>, numClass: nat, k: nat)
    requires |labels| == |data| && Scored(predict, data, |data|) && k < numClass
    ensures var c := numClass - 1 - k;
      PerClassOf(predict, data, labels, numClass).value[k] == Frac(Correct(predict, data, labels, |data|, c), Seqs.Count(labels, c))
    ensures var v := PerClassOf(predict, data, labels, numClass).value[k];
      v.Some? ==> 0.0 <= v.value <= 1.0
  {
    var c := numClass - 1 - k;
    var inner := seq(numClass, c requires 0 <= c < numClass =>
      Frac(Correct(predict, data, labels, |data|, c), Seqs.Count(labels, c)));
    assert PerClassOf(predict, data, labels, numClass) == Ok(Reversed(inner));
    assert Reversed(inner)[k] == inner[c];
    var f := Frac(Correct(predict, data, labels, |data|, c), Seqs.Count(labels, c));
    assert inner[c] == f;
    CorrectAtMostCount(predict, data, labels, |data|, c);
    assert labels[..|data|] == labels;
    if Seqs.Count(labels, c) > 0 {
      FracBounds(Correct(predict, data, labels, |data|, c), Seqs.Count(labels, c));
    }
  }

  /** The mean `sum / length` of a list; `NaN` when it is empty or holds a `NaN`. */
  function Average(l: seq<Option<real>>): Option<real>
  {
    if |l| == 0 || exists k :: 0 <= k < |l| && l[k].None? then None
    else Some(SumOf(l, |l|) / |l| as real)
  }

  /** The sum of the first `n` entries of a list without `NaN`. */
  function SumOf(l: seq<Option<real>>, n: nat): real
    requires n <= |l| && forall k :: 0 <= k < n ==> l[k].Some?
  {
    if n == 0 then 0.0 else SumOf(l, n - 1) + l[n - 1].value
  }

  lemma {:induction false} SumOfBounds(l: seq<Option<real>>, n: nat)
    requires n <= |l| && forall k :: 0 <= k < n ==> l[k].Some? && 0.0 <= l[k].value <= 1.0
    ensures 0.0 <= SumOf(l, n) <= n as real
  {
    if n > 0 {
      SumOfBounds(l, n - 1);
    }
  }

  /** The mean of fractions in `[0, 1]` is in `[0, 1]`. */
  lemma AverageBounds(l: seq<Option<real>>)
    requires |l| > 0 && forall k :: 0 <= k < |l| ==> l[k].Some? && 0.0 <= l[k].value <= 1.0
    ensures Average(l).Some? && 0.0 <= Average(l).value <= 1.0
  {
    SumOfBounds(l, |l|);
    var s := SumOf(l, |l|);
    var q := s / |l| as real;
    assert q * |l| as real == s;
  }

  /** The confusion record `{ TP, FN, FP, TN }`. */
  datatype Confusion = Confusion(tp: nat, fn: nat, fp: nat, tn: nat)

  /** One sample entered into the record: a hit is a true positive for label 1 and a
      true negative otherwise; a miss is a false negative when class 0 was predicted for
      label 1, and a false positive in every other case. */
  function Tally(m: Confusion, pred: nat, target: nat): (r: Confusion)
    ensures r.tp + r.fn + r.fp + r.tn == m.tp + m.fn + m.fp + m.tn + 1
  {
    if pred == target then
      if target == 1 then m.(tp := m.tp + 1) else m.(tn := m.tn + 1)
    else if pred == 0 && target == 1 then m.(fn := m.fn + 1)
    else m.(fp := m.fp + 1)
  }

  /** The record after the first `n` samples. */
  function ConfusionOf(predict: Vector -> seq<real>, data: seq<Vector>, labels: seq<nat>, n: nat): Confusion
    requires n <= |data| && n <= |labels| && Scored(predict, data, n)
  {
    if n == 0 then Confusion(0, 0, 0, 0)
    else Tally(ConfusionOf(predict, data, labels, n - 1), Class(predict, data[n - 1]), labels[n - 1])
  }

  /** Every sample lands in exactly one cell, and the hits are the true positives and
      negatives. */
  lemma {:induction false} ConfusionCounts(predict: Vector -> seq<real>, data: seq<Vector>, labels: seq<nat>, n: nat)
    requires n <= |data| && n <= |labels| && Scored(predict, data, n)
    ensures var m := ConfusionOf(predict, data, labels, n);
      m.tp + m.fn + m.fp + m.tn == n && m.tp + m.tn == Hits(predict, data, labels, n)
  {
    if n > 0 {
      ConfusionCounts(predict, data, labels, n - 1);
    }
  }

  /** When every predicted class is 0 or 1, the samples of label 1 are the true
      positives and the false negatives. */
  lemma {:induction false} ConfusionPositives(predict: Vector -> seq<real>, data: seq<Vector>, labels: seq<nat>, n: nat)
    requires n <= |data| && n <= |labels| && Scored(predict, data, n)
    requires forall i :: 0 <= i < n ==> Class(predict, data[i]) < 2
    ensures var m := ConfusionOf(predict, data, labels, n);
      m.tp + m.fn == Seqs.Count(labels[..n], 1)
  {
    if n > 0 {
      ConfusionPositives(predict, data, labels, n - 1);
      assert labels[..n][..n - 1] == labels[..n - 1];
    }
  }

  /** What `ConfusionMatrix()` returns: it throws unless there are two classes, and
      "Empty list" from `ArgMax` when a prediction has no score. */
  function ConfusionMatrixOf(predict: Vector -> seq<real>, data: seq<Vector>, labels: seq<nat>, numClass: nat): Result<Confusion>
    requires |labels| == |data|
  {
    if numClass != 2 then Err("Confusion matrix on binary labels only")
    else if !Scored(predict, data, |data|) then Err("Empty list")
    else Ok(ConfusionOf(predict, data, labels, |data|))
  }

  /** `TP / (TP + FP)`. */
  function PrecisionOf(m: Confusion): Option<real>
  {
    Frac(m.tp, m.tp + m.fp)
  }

  /** `TP / (TP + FN)`. */
  function RecallOf(m: Confusion): Option<real>
  {
    Frac(m.tp, m.tp + m.fn)
  }

  /** `FP / (FP + TN)`. */
  function FallOutOf(m: Confusion): Option<real>
  {
    Frac(m.fp, m.fp + m.tn)
  }

  /** Precision, recall and fall-out are fractions in `[0, 1]` whenever they are numbers. */
  lemma RatesBounds(m: Confusion)
    ensures PrecisionOf(m).Some? ==> 0.0 <= PrecisionOf(m).value <= 1.0
    ensures RecallOf(m).Some? ==> 0.0 <= RecallOf(m).value <= 1.0
    ensures FallOutOf(m).Some? ==> 0.0 <= FallOutOf(m).value <= 1.0
  {
    if m.tp + m.fp > 0 {
      FracBounds(m.tp, m.tp + m.fp);
    }
    if m.tp + m.fn > 0 {
      FracBounds(m.tp, m.tp + m.fn);
    }
    if m.fp + m.tn > 0 {
      FracBounds(m.fp, m.fp + m.tn);
    }
  }

  /** `2 * ((p * r) / (p + r))`; `NaN` when either is, or when both are 0. */
  function F1Of(p: Option<real>, r: Option<real>): Option<real>
  {
    if p.None? || r.None? || p.value + r.value == 0.0 then None
    else Some(TwoPrOverSum(p.value, r.value))
  }

  function TwoPrOverSum(p: real, r: real): real
    requires p + r != 0.0
  {
    2.0 * ((p * r) / (p + r))
  }

  /** The F1 score of a precision and a recall in `[0, 1]` lies in `[0, 1]`. */
  lemma F1Bounds(p: real, r: real)
    requires 0.0 <= p <= 1.0 && 0.0 <= r <= 1.0 && p + r > 0.0
    ensures F1Of(Some(p), Some(r)).Some?
    ensures 0.0 <= F1Of(Some(p), Some(r)).value <= 1.0
  {
    ProductBound(p, r);
    HalfQuotient(p * r, p + r);
  }

  /** `2 p r <= p + r` for `p` and `r` in `[0, 1]`, since `p (1 - r) + r (1 - p) >= 0`. */
  lemma ProductBound(p: real, r: real)
    requires 0.0 <= p <= 1.0 && 0.0 <= r <= 1.0
    ensures 0.0 <= p * r && 2.0 * (p * r) <= p + r
  {
    var c := p * r;
    NonNegProduct(p, r);
    NonNegProduct(p, 1.0 - r);
    NonNegProduct(r, 1.0 - p);
    assert p * (1.0 - r) == p - c;
    assert r * (1.0 - p) == r - c;
  }

  lemma NonNegProduct(x: real, y: real)
    requires x >= 0.0 && y >= 0.0
    ensures x * y >= 0.0
  {
  }

  lemma HalfQuotient(x: real, s: real)
    requires s > 0.0 && 0.0 <= x && 2.0 * x <= s
    ensures 0.0 <= 2.0 * (x / s) <= 1.0
  {
    var q := x / s;
    assert q * s == x;
  }

  /** The sum of `log(Predict(x_i)[t_i])` over the first `n` samples. A prediction with
      no entry for its label hands `undefined` to `math.log`, which throws. */
  function LogLossOf(predict: Vector -> seq<real>, data: seq<Vector>, labels: seq<nat>, log: real -> real, n: nat): Result<real>
    requires n <= |data| && n <= |labels|
  {
    if n == 0 then Ok(0.0)
    else
      var prev := LogLossOf(predict, data, labels, log, n - 1);
      var p := predict(data[n - 1]);
      if prev.Err? then prev
      else if labels[n - 1] >= |p| then Err(LogOfUndefined)
      else Ok(prev.value + log(p[labels[n - 1]]))
  }

  /** Every label has an entry in its sample's prediction. */
  predicate Covered(predict: Vector -> seq<real>, data: seq<Vector>, labels: seq<nat>, n: nat)
    requires n <= |data| && n <= |labels|
  {
    forall i :: 0 <= i < n ==> labels[i] < |predict(data[i])|
  }

  /** The loss throws exactly when some label has no entry in its prediction, and then
      with mathjs's `TypeError`. */
  lemma {:induction false} LogLossThrowsIff(predict: Vector -> seq<real>, data: seq<Vector>, labels: seq<nat>, log: real -> real, n: nat)
    requires n <= |data| && n <= |labels|
    ensures LogLossOf(predict, data, labels, log, n).Err? <==> !Covered(predict, data, labels, n)
    ensures LogLossOf(predict, data, labels, log, n).Err? ==> LogLossOf(predict, data, labels, log, n).error == LogOfUndefined
  {
    if n > 0 {
      LogLossThrowsIff(predict, data, labels, log, n - 1);
      if labels[n - 1] >= |predict(data[n - 1])| {
        assert !Covered(predict, data, labels, n);
      } else if !Covered(predict, data, labels, n - 1) {
        var i :| 0 <= i < n - 1 && labels[i] >= |predict(data[i])|;
        assert !Covered(predict, data, labels, n);
      }
    }
  }

  /** The loss is neither negated nor averaged: a model that gives every label the
      probability 1 has loss `n * log(1)`. */
  lemma {:induction false} LogLossOfCertain(predict: Vector -> seq<real>, data: seq<Vector>, labels: seq<nat>, log: real -> real, n: nat)
    requires n <= |data| && n <= |labels|
    requires forall i :: 0 <= i < n ==> labels[i] < |predict(data[i])| && predict(data[i])[labels[i]] == 1.0
    ensures LogLossOf(predict, data, labels, log, n) == Ok(n as real * log(1.0))
  {
    if n > 0 {
      LogLossOfCertain(predict, data, labels, log, n - 1);
      var p := predict(data[n - 1]);
      assert labels[n - 1] < |p| && p[labels[n - 1]] == 1.0;
      var prev := LogLossOf(predict, data, labels, log, n - 1);
      assert prev.Ok? && prev.value == (n - 1) as real * log(1.0);
      assert log(p[labels[n - 1]]) == log(1.0);
      assert LogLossOf(predict, data, labels, log, n) == Ok(prev.value + log(p[labels[n - 1]]));
      MulSucc(n, log(1.0));
      assert prev.value + log(1.0) == n as real * log(1.0);
    }
  }

  /** Once the loss has thrown, the remaining samples leave the throw as it is. */
  lemma {:induction false} LogLossErrSticks(predict: Vector -> seq<real>, data: seq<Vector>, labels: seq<nat>, log: real -> real, i: nat, n: nat)
    requires i <= n <= |data| && n <= |labels| && LogLossOf(predict, data, labels, log, i).Err?
    ensures LogLossOf(predict, data, labels, log, n) == LogLossOf(predict, data, labels, log, i)
    decreases n - i
  {
    if n > i {
      LogLossErrSticks(predict, data, labels, log, i, n - 1);
    }
  }

  lemma MulSucc(n: nat, x: real)
    requires n > 0
    ensures (n - 1) as real * x + x == n as real * x
  {
  }

  datatype ClassifierMetrics = ClassifierMetrics(
    acc: Option<real>, avgClassAcc: Option<real>, perClassAcc: seq<Option<real>>, confusion: Confusion,
    precision: Option<real>, recall: Option<real>, logLoss: real, fallOut: Option<real>,
    f1: Option<real>, auroc: real)

  class ClassifierEvaluation {
    const data: seq<Vector>
    const labels: seq<nat>
    const predict: Vector -> seq<real>
    const numClass: nat

    /** One label per sample. */
    ghost predicate Valid()
    {
      |labels| == |data|
    }

    /** `new vml_ClassifierEvaluation(lData, lLabels, oModel, iNumClass)` with the model's `Predict`. */
    constructor(d: seq<Vector>, l: seq<nat>, p: Vector -> seq<real>, k: nat)
      ensures data == d && labels == l && predict == p && numClass == k
    {
      data := d;
      labels := l;
      predict := p;
      numClass := k;
    }

    /** `Accuracy()`. */
    method Accuracy() returns (r: Result<Option<real>>)
      requires Valid()
      ensures r == AccuracyOf(predict, data, labels)
    {
      var hits := 0;
      var i := 0;
      while i != |data|
        invariant 0 <= i <= |data| && Scored(predict, data, i) && hits == Hits(predict, data, labels, i)
      {
        var c := Utils.ArgMax(predict(data[i]));
        if c.Err? {
          return Err(c.error);
        }
        if labels[i] == c.value {
          hits := hits + 1;
        }
        i := i + 1;
      }
      if |data| == 0 {
        return Ok(None);
      }
      return Ok(Some(hits as real / |data| as real));
    }

    /** `PerClassAccuracy()`, for labels that are class indices below `iNumClass`. */
    method PerClassAccuracy() returns (r: Result<seq<Option<real>>>)
      requires Valid() && forall i :: 0 <= i < |labels| ==> labels[i] < numClass
      ensures r == PerClassOf(predict, data, labels, numClass)
    {
      var correct := Utils.FillList(numClass, 0);
      var norm := Utils.FillList(numClass, 0);
      var i := 0;
      while i != |data|
        invariant 0 <= i <= |data| && Scored(predict, data, i) && |correct| == numClass && |norm| == numClass
        invariant forall c :: 0 <= c < numClass ==> correct[c] == Correct(predict, data, labels, i, c)
        invariant forall c :: 0 <= c < numClass ==> norm[c] == Seqs.Count(labels[..i], c)
      {
        var target := labels[i];
        var c := Utils.ArgMax(predict(data[i]));
        if c.Err? {
          return Err(c.error);
        }
        assert Scored(predict, data, i + 1);
        TallyStep(predict, data, labels, i);
        if c.value == target {
          correct := correct[target := correct[target] + 1];
        }
        norm := norm[target := norm[target] + 1];
        i := i + 1;
      }
      assert labels[..|data|] == labels;
      var ratios := seq(numClass, c requires 0 <= c < numClass => Frac(correct[c], norm[c]));
      ghost var spec := seq(numClass, c requires 0 <= c < numClass =>
        Frac(Correct(predict, data, labels, |data|, c), Seqs.Count(labels, c)));
      assert forall c :: 0 <= c < numClass ==> ratios[c] == spec[c];
      assert ratios == spec;
      r := Ok(Reversed(ratios));
    }

    /** `AvgPerClassAccuracy()`: the mean of the per-class accuracies. */
    method AvgPerClassAccuracy() returns (r: Result<Option<real>>)
      requires Valid() && forall i :: 0 <= i < |labels| ==> labels[i] < numClass
      ensures PerClassOf(predict, data, labels, numClass).Err? ==> r == Err("Empty list")
      ensures PerClassOf(predict, data, labels, numClass).Ok? ==> r == Ok(Average(PerClassOf(predict, data, labels, numClass).value))
    {
      var per := PerClassAccuracy();
      if per.Err? {
        return Err(per.error);
      }
      var l := per.value;
      var sum := Some(0.0);
      var i := 0;
      while i != |l|
        invariant 0 <= i <= |l|
        invariant sum.Some? <==> forall k :: 0 <= k < i ==> l[k].Some?
        invariant sum.Some? ==> sum.value == SumOf(l, i)
      {
        if sum.Some? && l[i].Some? {
          sum := Some(sum.value + l[i].value);
        } else {
          sum := None;
        }
        i := i + 1;
      }
      if |l| == 0 || sum.None? {
        return Ok(None);
      }
      return Ok(Some(sum.value / |l| as real));
    }

    /** `ConfusionMatrix()`. */
    method ConfusionMatrix() returns (r: Result<Confusion>)
      requires Valid()
      ensures r == ConfusionMatrixOf(predict, data, labels, numClass)
    {
      if numClass != 2 {
        return Err("Confusion matrix on binary labels only");
      }
      var m := Confusion(0, 0, 0, 0);
      var i := 0;
      while i != |data|
        invariant 0 <= i <= |data| && Scored(predict, data, i) && m == ConfusionOf(predict, data, labels, i)
      {
        var c := Utils.ArgMax(predict(data[i]));
        if c.Err? {
          return Err(c.error);
        }
        var target := labels[i];
        if c.value == target {
          if target == 1 {
            m := m.(tp := m.tp + 1);
          } else {
            m := m.(tn := m.tn + 1);
          }
        } else {
          if c.value == 0 && target == 1 {
            m := m.(fn := m.fn + 1);
          } else {
            m := m.(fp := m.fp + 1);
          }
        }
        i := i + 1;
      }
      return Ok(m);
    }

    /** `LogLoss()`: leaves with the `TypeError` at the first label without an entry. */
    method LogLoss(log: real -> real) returns (r: Result<real>)
      requires Valid()
      ensures r == LogLossOf(predict, data, labels, log, |data|)
    {
      var loss := 0.0;
      var i := 0;
      while i != |data|
        invariant 0 <= i <= |data| && LogLossOf(predict, data, labels, log, i) == Ok(loss)
      {
        var pred := predict(data[i]);
        var target := labels[i];
        if target >= |pred| {
          // math.log(undefined)
          LogLossErrSticks(predict, data, labels, log, i + 1, |data|);
          return Err(LogOfUndefined);
        }
        loss := loss + log(pred[target]);
        i := i + 1;
      }
      r := Ok(loss);
    }

    /** `Precision()`. */
    method Precision() returns (r: Result<Option<real>>)
      requires Valid()
      ensures var m := ConfusionMatrixOf(predict, data, labels, numClass);
        (m.Err? ==> r == Err(m.error)) && (m.Ok? ==> r == Ok(PrecisionOf(m.value)))
    {
      var m := ConfusionMatrix();
      if m.Err? {
        return Err(m.error);
      }
      r := Ok(Frac(m.value.tp, m.value.tp + m.value.fp));
    }

    /** `Recall()`. */
    method Recall() returns (r: Result<Option<real>>)
      requires Valid()
      ensures var m := ConfusionMatrixOf(predict, data, labels, numClass);
        (m.Err? ==> r == Err(m.error)) && (m.Ok? ==> r == Ok(RecallOf(m.value)))
    {
      var m := ConfusionMatrix();
      if m.Err? {
        return Err(m.error);
      }
      r := Ok(Frac(m.value.tp, m.value.tp + m.value.fn));
    }

    /** `FallOut()`. */
    method FallOut() returns (r: Result<Option<real>>)
      requires Valid()
      ensures var m := ConfusionMatrixOf(predict, data, labels, numClass);
        (m.Err? ==> r == Err(m.error)) && (m.Ok? ==> r == Ok(FallOutOf(m.value)))
    {
      var m := ConfusionMatrix();
      if m.Err? {
        return Err(m.error);
      }
      r := Ok(Frac(m.value.fp, m.value.fp + m.value.tn));
    }

    /** `F1Score()`. */
    method F1Score() returns (r: Result<Option<real>>)
      requires Valid()
      ensures var m := ConfusionMatrixOf(predict, data, labels, numClass);
        (m.Err? ==> r == Err(m.error)) && (m.Ok? ==> r == Ok(F1Of(PrecisionOf(m.value), RecallOf(m.value))))
    {
      var p := Precision();
      if p.Err? {
        return Err(p.error);
      }
      // Precision() did not throw, so neither does Recall()
      var rc := Recall();
      ghost var m := ConfusionMatrixOf(predict, data, labels, numClass);
      assert m.Ok? && p.value == PrecisionOf(m.value) && rc.value == RecallOf(m.value);
      var fp, fr := p.value, rc.value;
      if fp.None? || fr.None? || fp.value + fr.value == 0.0 {
        return Ok(None);
      }
      r := Ok(Some(TwoPrOverSum(fp.value, fr.value)));
    }

    /** `AUROC()`: its loop over the thresholds has an empty body, so it returns 0. */
    method Auroc() returns (r: real)
      ensures r == 0.0
    {
      r := 0.0;
    }

    /** `AllMetrics()`: every metric, evaluated in the order of the object literal, so the
        first to throw (`Accuracy` on an unscored point, then `ConfusionMatrix` unless
        there are two classes, then `LogLoss` on a label without an entry) decides the
        error. */
    method AllMetrics(log: real -> real) returns (r: Result<ClassifierMetrics>)
      requires Valid() && forall i :: 0 <= i < |labels| ==> labels[i] < numClass
      ensures r.Err? <==> !Scored(predict, data, |data|) || numClass != 2 || !Covered(predict, data, labels, |data|)
      ensures r.Err? ==> r.error == (if !Scored(predict, data, |data|) then "Empty list"
        else if numClass != 2 then "Confusion matrix on binary labels only" else LogOfUndefined)
      ensures r.Ok? ==> var m := ConfusionOf(predict, data, labels, |data|);
        r.value.acc == Frac(Hits(predict, data, labels, |data|), |data|) &&
        r.value.perClassAcc == PerClassOf(predict, data, labels, numClass).value &&
        r.value.avgClassAcc == Average(r.value.perClassAcc) &&
        r.value.confusion == m && r.value.precision == PrecisionOf(m) && r.value.recall == RecallOf(m) &&
        LogLossOf(predict, data, labels, log, |data|) == Ok(r.value.logLoss) && r.value.fallOut == FallOutOf(m) &&
        r.value.f1 == F1Of(PrecisionOf(m), RecallOf(m)) && r.value.auroc == 0.0
    {
      var acc := Accuracy();
      if acc.Err? {
        return Err(acc.error);
      }
      var avg := AvgPerClassAccuracy();
      var per := PerClassAccuracy();
      var cm := ConfusionMatrix();
      if cm.Err? {
        return Err(cm.error);
      }
      var prec := Precision();
      var rec := Recall();
      var loss := LogLoss(log);
      LogLossThrowsIff(predict, data, labels, log, |data|);
      if loss.Err? {
        return Err(loss.error);
      }
      var fall := FallOut();
      var f1 := F1Score();
      var auroc := Auroc();
      r := Ok(ClassifierMetrics(acc.value, avg.value, per.value, cm.value, prec.value, rec.value, loss.value, fall.value, f1.value, auroc));
    }
  }
}
