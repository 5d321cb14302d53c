/** The decision tree `vml_DecisionTree`.

  The recursive `buildTree` grows a tree from four loop helpers (`doSplit`,
  `majorityClassifier`, `computeErrorOfMajorityClassifier`, `findBestSplit`).
  Each helper is a method proved against a function (`SplitOf`, `MajorityOf`,
  `MajorityError`, `Search`), and `buildTree` against the tree `TreeOf` built
  from those functions. Labels are class indices below the number of classes;
  `Math.log` is the parameter `log`.
 */
module DecisionTree {
  import opened Vectors
  import opened VmlMath
  import opened Wrappers
  import opened Seqs
  import Utils

  /** `TreeNode`: a leaf holds the class probabilities (`None` when they are the `NaN`s
      of an empty label set); an inner node holds its children, feature and threshold. */
  datatype Tree =
    | Leaf(prediction: Option<seq<real>>)
    | Node(left: Tree, right: Tree, feature: nat, threshold: real)

  /** The `{ iFeatureIndex, fThreshold }` record of a split. */
  datatype Split = Split(feature: nat, threshold: real)

  /** The `{ lLeftData, lLeftLabels, lRightData, lRightLabels }` record of `doSplit`. */
  datatype SplitData = SplitData(leftData: seq<Vector>, leftLabels: seq<nat>, rightData: seq<Vector>, rightLabels: seq<nat>)

  /** The `{ lPred, iLabel }` record of `majorityClassifier`. */
  datatype Majority = Majority(prediction: Option<seq<real>>, predicted: nat)

  /** Every label is a class index below `classes`. */
  predicate InRange(labels: seq<nat>, classes: nat)
  {
    forall i :: 0 <= i < |labels| ==> labels[i] < classes
  }

  /** Every point has at least `features` coordinates. */
  predicate Wide(data: seq<Vector>, features: nat)
  {
    forall j :: 0 <= j < |data| ==> features <= |data[j]|
  }

  /** A point goes left when its feature is at most the threshold; a missing feature
      reads as `undefined`, which compares false. */
  predicate GoesLeft(p: Vector, f: nat, threshold: real)
  {
    f < |p| && p[f] <= threshold
  }

  function Height(t: Tree): nat
  {
    match t
    case Leaf(_) => 0
    case Node(l, r, _, _) => 1 + (if Height(l) < Height(r) then Height(r) else Height(l))
  }

  /** `l` is one of the leaves of `t`. */
  predicate IsLeafOf(l: Tree, t: Tree)
  {
    match t
    case Leaf(_) => l == t
    case Node(left, right, _, _) => IsLeafOf(l, left) || IsLeafOf(l, right)
  }

  // ---------------------------------------------------------------------------
  // doSplit

  /** The indices, in increasing order, of the points that go to the left side
      (`left`) or to the right side (`!left`). */
  function Side(data: seq<Vector>, f: nat, threshold: real, left: bool): (r: seq<nat>)
    ensures forall k :: 0 <= k < |r| ==> r[k] < |data|
  {
    if data == [] then []
    else
      var n := |data| - 1;
      Side(data[..n], f, threshold, left) + (if GoesLeft(data[n], f, threshold) == left then [n] else [])
  }

  /** What `doSplit` returns: the points going left with their labels, then the others. */
  function SplitOf(data: seq<Vector>, labels: seq<nat>, f: nat, threshold: real): SplitData
    requires |labels| == |data|
  {
    var l, r := Side(data, f, threshold, true), Side(data, f, threshold, false);
    SplitData(Pick(data, l), Pick(labels, l), Pick(data, r), Pick(labels, r))
  }

  /** Each side is increasing and holds exactly the indices of its points. */
  lemma {:induction false} SideFacts(data: seq<Vector>, f: nat, threshold: real, left: bool)
    ensures forall a, b :: 0 <= a < b < |Side(data, f, threshold, left)| ==>
      Side(data, f, threshold, left)[a] < Side(data, f, threshold, left)[b]
    ensures forall i :: 0 <= i < |data| ==> (i in Side(data, f, threshold, left) <==> GoesLeft(data[i], f, threshold) == left)
  {
    if data != [] {
      var n := |data| - 1;
      var p := data[..n];
      SideFacts(p, f, threshold, left);
      var sp := Side(p, f, threshold, left);
      assert Side(data, f, threshold, left) == sp + (if GoesLeft(data[n], f, threshold) == left then [n] else []);
      forall i | 0 <= i < n
        ensures (i in Side(data, f, threshold, left) <==> GoesLeft(data[i], f, threshold) == left)
      {
        assert p[i] == data[i];
      }
    }
  }

  /** Together the two sides hold every index once. */
  lemma {:induction false} SidesCover(data: seq<Vector>, f: nat, threshold: real)
    ensures |Side(data, f, threshold, true)| + |Side(data, f, threshold, false)| == |data|
  {
    if data != [] {
      SidesCover(data[..|data| - 1], f, threshold);
    }
  }

  /** `doSplit` keeps the original order and the pairing of points and labels: the
      left side is the in-order subsequence of points with `GoesLeft`, the right side
      that of the others, and no point is lost or repeated. */
  lemma SplitOfPartition(data: seq<Vector>, labels: seq<nat>, f: nat, threshold: real)
    requires |labels| == |data|
    ensures var sd, l, r := SplitOf(data, labels, f, threshold), Side(data, f, threshold, true), Side(data, f, threshold, false);
      |sd.leftData| + |sd.rightData| == |data| &&
      |sd.leftLabels| == |sd.leftData| && |sd.rightLabels| == |sd.rightData| &&
      (forall a, b :: 0 <= a < b < |l| ==> l[a] < l[b]) &&
      (forall a, b :: 0 <= a < b < |r| ==> r[a] < r[b]) &&
      (forall i :: 0 <= i < |data| ==> (i in l <==> GoesLeft(data[i], f, threshold)) && (i in r <==> !GoesLeft(data[i], f, threshold))) &&
      (forall k :: 0 <= k < |l| ==> sd.leftData[k] == data[l[k]] && sd.leftLabels[k] == labels[l[k]]) &&
      (forall k :: 0 <= k < |r| ==> sd.rightData[k] == data[r[k]] && sd.rightLabels[k] == labels[r[k]])
  {
    SideFacts(data, f, threshold, true);
    SideFacts(data, f, threshold, false);
    SidesCover(data, f, threshold);
  }

  /** One more point extends the side it goes to by that point and its label. */
  lemma SplitStep(data: seq<Vector>, labels: seq<nat>, f: nat, threshold: real, i: nat)
    requires |labels| == |data| && i < |data|
    ensures var sd, sd' := SplitOf(data[..i], labels[..i], f, threshold), SplitOf(data[..i + 1], labels[..i + 1], f, threshold);
      if GoesLeft(data[i], f, threshold) then
        sd' == SplitData(sd.leftData + [data[i]], sd.leftLabels + [labels[i]], sd.rightData, sd.rightLabels)
      else
        sd' == SplitData(sd.leftData, sd.leftLabels, sd.rightData + [data[i]], sd.rightLabels + [labels[i]])
  {
    var d, d' := data[..i], data[..i + 1];
    var t, t' := labels[..i], labels[..i + 1];
    assert d'[..i] == d;
    var l, r := Side(d, f, threshold, true), Side(d, f, threshold, false);
    PickAgree(d, d', l);
    PickAgree(d, d', r);
    PickAgree(t, t', l);
    PickAgree(t, t', r);
  }

  // ---------------------------------------------------------------------------
  // majorityClassifier

  /** The counts of the classes `0 .. classes - 1`, as reals. */
  function Counts(s: seq<nat>, classes: nat): (r: seq<real>)
    ensures |r| == classes
  {
    seq(classes, c requires 0 <= c => Count(s, c) as real)
  }

  /** The class probabilities `count / |s|`, or `None` for the `NaN`s of `0 / 0`. */
  function Probs(s: seq<nat>, classes: nat): Option<seq<real>>
  {
    if |s| == 0 then None else Some(Scale(Counts(s, classes), 1.0 / (|s| as real)))
  }

  /** The scan over the probabilities that starts from class 0 with best value 0 and
      moves only to a strictly larger value: the class found and its value. */
  function BestClass(p: seq<real>): (nat, real)
  {
    if p == [] then (0, 0.0)
    else
      var (top, best) := BestClass(p[..|p| - 1]);
      if p[|p| - 1] > best then (|p| - 1, p[|p| - 1]) else (top, best)
  }

  /** What `majorityClassifier` returns. */
  function MajorityOf(s: seq<nat>, classes: nat): Majority
  {
    var p := Probs(s, classes);
    Majority(p, if p.Some? then BestClass(p.value).0 else 0)
  }

  /** Counting one more label adds 1 to its class's count. */
  lemma CountsSnoc(s: seq<nat>, x: nat, classes: nat)
    requires x < classes
    ensures Counts(s + [x], classes) == Counts(s, classes)[x := Counts(s, classes)[x] + 1.0]
  {
    forall c | 0 <= c < classes
      ensures Counts(s + [x], classes)[c] == Counts(s, classes)[x := Counts(s, classes)[x] + 1.0][c]
    {
      CountSnoc(s, x, c);
    }
  }

  /** The class counts of in-range labels add up to the number of labels. */
  lemma {:induction false} CountsSum(s: seq<nat>, classes: nat)
    requires InRange(s, classes)
    ensures Sum(Counts(s, classes)) == |s| as real
  {
    if s != [] {
      var n := |s| - 1;
      var p := s[..n];
      assert s == p + [s[n]];
      CountsSum(p, classes);
      CountsSnoc(p, s[n], classes);
      var v := Counts(p, classes);
      assert Counts(s, classes) == v[s[n] := v[s[n]] + 1.0];
      SumUpdate(v, s[n], 1.0);
    } else {
      assert Counts(s, classes) == Zeros(classes);
      SumZeros(classes);
    }
  }


  /** The scan's value is 0 or the value at the class found; it bounds every entry
      from above and strictly bounds the entries before the class found. */
  lemma {:induction false} BestClassFacts(p: seq<real>)
    ensures var (top, best) := BestClass(p);
      best >= 0.0 &&
      (best == 0.0 ==> top == 0) &&
      (best > 0.0 ==> top < |p| && p[top] == best) &&
      (forall c :: 0 <= c < |p| ==> p[c] <= best) &&
      (forall c :: 0 <= c < top && c < |p| ==> p[c] < best)
  {
    if p != [] {
      var n := |p| - 1;
      var q := p[..n];
      BestClassFacts(q);
      assert forall c :: 0 <= c < n ==> p[c] == q[c];
      var (t0, b0) := BestClass(q);
      assert BestClass(p) == if p[n] > b0 then (n, p[n]) else (t0, b0);
    }
  }

  /** The probabilities of a non-empty set of in-range labels add up to 1. */
  lemma ProbsSum(s: seq<nat>, classes: nat)
    requires InRange(s, classes) && s != []
    ensures Sum(Probs(s, classes).value) == 1.0
  {
    var n := |s| as real;
    CountsSum(s, classes);
    SumScale(Counts(s, classes), 1.0 / n);
    assert (1.0 / n) * n == 1.0;
  }

  /** When some entry is positive, the scan finds the lowest index of the maximum. */
  lemma BestClassIsFirstMax(p: seq<real>, c: nat)
    requires c < |p| && p[c] > 0.0
    ensures Utils.IsFirstMax(p, BestClass(p).0)
  {
    BestClassFacts(p);
    var (top, best) := BestClass(p);
    assert best >= p[c] > 0.0;
  }

  /** Entry `c` of the probabilities is the count of `c` divided by the number of labels. */
  lemma ProbsAt(s: seq<nat>, classes: nat)
    requires s != []
    ensures var p := Probs(s, classes).value;
      |p| == classes && forall c :: 0 <= c < classes ==> p[c] == Count(s, c) as real * (1.0 / (|s| as real))
  {
  }

  /** The class of the first label has positive probability, so the scan finds the
      lowest class of highest probability. */
  lemma ProbsFirstMax(s: seq<nat>, classes: nat)
    requires InRange(s, classes) && s != []
    ensures Utils.IsFirstMax(Probs(s, classes).value, BestClass(Probs(s, classes).value).0)
  {
    var p := Probs(s, classes).value;
    var c := s[0];
    CountFacts(s, c);
    var cnt := Count(s, c) as real;
    var n := |s| as real;
    assert p[c] == cnt * (1.0 / n);
    assert cnt >= 1.0 && 1.0 / n > 0.0;
    MulStrictMono(0.0, cnt, 1.0 / n);
    BestClassIsFirstMax(p, c);
  }

  /** `majorityClassifier` on a non-empty set of in-range labels: `classes` probabilities
      summing to 1 (entry by entry they are `count / length`, as `ProbsAt` states), and
      `iLabel` the lowest class of highest probability.
      On an empty set the probabilities are `NaN` and `iLabel` is 0. */
  lemma MajorityOfFacts(s: seq<nat>, classes: nat)
    requires InRange(s, classes)
    ensures MajorityOf(s, classes).prediction.None? <==> s == []
    ensures s == [] ==> MajorityOf(s, classes).predicted == 0
    ensures s != [] ==> |MajorityOf(s, classes).prediction.value| == classes
    ensures s != [] ==> Sum(MajorityOf(s, classes).prediction.value) == 1.0
    ensures s != [] ==> Utils.IsFirstMax(MajorityOf(s, classes).prediction.value, MajorityOf(s, classes).predicted)
  {
    if s != [] {
      ProbsSum(s, classes);
      ProbsFirstMax(s, classes);
    }
  }

  // ---------------------------------------------------------------------------
  // computeErrorOfMajorityClassifier and computeErrorOfSplit

  /** `Math.log` is negative strictly between 0 and 1. */
  ghost predicate NegativeOnUnit(log: real -> real)
  {
    forall x {:trigger log(x)} :: 0.0 < x < 1.0 ==> log(x) < 0.0
  }

  /** One term `p * Math.log(p)` of the error. */
  function XLogX(x: real, log: real -> real): real
  {
    x * log(x)
  }

  /** The sum over the labels (one term per label, not per class) of `p log p`. */
  function SumPLogP(labels: seq<nat>, p: seq<real>, log: real -> real): real
    requires forall i :: 0 <= i < |labels| ==> labels[i] < |p|
  {
    if labels == [] then 0.0
    else
      var n := |labels| - 1;
      SumPLogP(labels[..n], p, log) + XLogX(p[labels[n]], log)
  }

  /** What `computeErrorOfMajorityClassifier` returns: 0 when some class has probability
      exactly 1 or there are no labels; otherwise minus the sum over the labels of `p log p`. */
  function MajorityError(s: seq<nat>, classes: nat, log: real -> real): real
    requires InRange(s, classes)
  {
    if s == [] then 0.0
    else
      var p := Probs(s, classes).value;
      if exists c :: 0 <= c < classes && p[c] == 1.0 then 0.0 else -SumPLogP(s, p, log)
  }

  /** A set of one class only has error 0. */
  lemma MajorityErrorPure(s: seq<nat>, classes: nat, log: real -> real)
    requires InRange(s, classes) && s != [] && forall i :: 0 <= i < |s| ==> s[i] == s[0]
    ensures MajorityError(s, classes, log) == 0.0
  {
    CountFacts(s, s[0]);
    var p := Probs(s, classes).value;
    var n := |s| as real;
    assert p[s[0]] == n * (1.0 / n);
  }

  lemma MulNegative(x: real, y: real)
    requires x > 0.0 && y < 0.0
    ensures x * y < 0.0
  {
    MulStrictMono(y, 0.0, x);
  }

  /** Terms `p log p` with `0 < p < 1` sum to a negative number. */
  lemma {:induction false} SumPLogPNegative(labels: seq<nat>, p: seq<real>, log: real -> real)
    requires NegativeOnUnit(log) && labels != []
    requires forall i :: 0 <= i < |labels| ==> labels[i] < |p| && 0.0 < p[labels[i]] < 1.0
    ensures SumPLogP(labels, p, log) < 0.0
  {
    var n := |labels| - 1;
    var x := p[labels[n]];
    MulNegative(x, log(x));
    if n > 0 {
      SumPLogPNegative(labels[..n], p, log);
    }
  }

  /** With a logarithm negative on (0, 1), a set of two or more classes has
      positive error. */
  lemma MajorityErrorMixed(s: seq<nat>, classes: nat, log: real -> real)
    requires NegativeOnUnit(log) && InRange(s, classes)
    requires exists i :: 0 <= i < |s| && s[i] != s[0]
    ensures MajorityError(s, classes, log) > 0.0
  {
    var i :| 0 <= i < |s| && s[i] != s[0];
    var p := Probs(s, classes).value;
    forall c | 0 <= c < classes
      ensures p[c] < 1.0
    {
      CountFacts(s, c);
      ProbBounds(s, classes, c);
    }
    forall k | 0 <= k < |s|
      ensures s[k] < |p| && 0.0 < p[s[k]] < 1.0
    {
      assert s[k] in s;
      ProbBounds(s, classes, s[k]);
    }
    SumPLogPNegative(s, p, log);
  }

  /** A probability is below 1 unless every label is its class, and positive when the class occurs. */
  lemma ProbBounds(s: seq<nat>, classes: nat, c: nat)
    requires InRange(s, classes) && s != [] && c < classes
    ensures Count(s, c) < |s| ==> Probs(s, classes).value[c] < 1.0
    ensures c in s ==> Probs(s, classes).value[c] > 0.0
  {
    var p := Probs(s, classes).value;
    var cnt := Count(s, c) as real;
    var n := |s| as real;
    ProbsAt(s, classes);
    assert p[c] == cnt * (1.0 / n);
    CountFacts(s, c);
    QuotientBounds(cnt, n);
  }

  /** One more step of the scan over the probabilities. */
  lemma BestClassStep(p: seq<real>, i: nat)
    requires i < |p|
    ensures BestClass(p[..i + 1]) ==
      if p[i] > BestClass(p[..i]).1 then (i, p[i]) else BestClass(p[..i])
  {
    assert p[..i + 1][..i] == p[..i];
  }

  /** Dividing a count by the number of labels gives its probability. */
  lemma NormalizeEntry(s: seq<nat>, classes: nat, c: nat)
    requires s != [] && c < classes
    ensures Counts(s, classes)[c] / (|s| as real) == Probs(s, classes).value[c]
  {
    DivIsScale(Counts(s, classes)[c], |s| as real);
  }

  lemma DivIsScale(x: real, n: real)
    requires n != 0.0
    ensures x / n == x * (1.0 / n)
  {
  }

  lemma QuotientBounds(a: real, n: real)
    requires 0.0 <= a && 0.0 < n
    ensures a < n ==> a * (1.0 / n) < 1.0
    ensures a >= 1.0 ==> a * (1.0 / n) > 0.0
  {
    assert a * (1.0 / n) == a / n;
  }

  /** With a logarithm negative on (0, 1): the error is 0 exactly for the empty set
      and for a set of one class only, and it is never negative. */
  lemma MajorityErrorZeroIff(s: seq<nat>, classes: nat, log: real -> real)
    requires NegativeOnUnit(log) && InRange(s, classes)
    ensures MajorityError(s, classes, log) >= 0.0
    ensures MajorityError(s, classes, log) == 0.0 <==> s == [] || forall i :: 0 <= i < |s| ==> s[i] == s[0]
  {
    if s != [] {
      if forall i :: 0 <= i < |s| ==> s[i] == s[0] {
        MajorityErrorPure(s, classes, log);
      } else {
        MajorityErrorMixed(s, classes, log);
      }
    }
  }

  /** What `computeErrorOfSplit` returns: the errors of the two sides, added. */
  function SplitError(data: seq<Vector>, labels: seq<nat>, f: nat, threshold: real, classes: nat, log: real -> real): real
    requires |labels| == |data| && InRange(labels, classes)
  {
    var sd := SplitOf(data, labels, f, threshold);
    SplitKeepsRange(data, labels, f, threshold, classes);
    MajorityError(sd.leftLabels, classes, log) + MajorityError(sd.rightLabels, classes, log)
  }

  /** Both sides of a split keep in-range labels, one per point. */
  lemma SplitKeepsRange(data: seq<Vector>, labels: seq<nat>, f: nat, threshold: real, classes: nat)
    requires |labels| == |data| && InRange(labels, classes)
    ensures var sd := SplitOf(data, labels, f, threshold);
      InRange(sd.leftLabels, classes) && InRange(sd.rightLabels, classes) &&
      |sd.leftLabels| == |sd.leftData| && |sd.rightLabels| == |sd.rightData|
  {
  }

  /** Both sides of a split keep points wide enough for the features. */
  lemma SplitKeepsWide(data: seq<Vector>, labels: seq<nat>, f: nat, threshold: real, features: nat)
    requires |labels| == |data| && Wide(data, features)
    ensures Wide(SplitOf(data, labels, f, threshold).leftData, features)
    ensures Wide(SplitOf(data, labels, f, threshold).rightData, features)
  {
  }

  // ---------------------------------------------------------------------------
  // findBestSplit

  /** The state of the `findBestSplit` scan: the best error so far (`None` for the
      initial `Infinity`), the feature and point it came from, and the split. */
  datatype ScanState = ScanState(best: Option<real>, at: (nat, nat), split: Split)

  /** The pair `(i', j')` comes before `(i, j)` in the scan order. */
  predicate Before(i': nat, j': nat, i: nat, j: nat)
  {
    i' < i || (i' == i && j' < j)
  }

  /** The error of splitting on feature `i` at the value of point `j`. */
  function PairError(data: seq<Vector>, labels: seq<nat>, classes: nat, log: real -> real, i: nat, j: nat): real
    requires |labels| == |data| && InRange(labels, classes) && j < |data| && i < |data[j]|
  {
    SplitError(data, labels, i, data[j][i], classes, log)
  }

  /** The errors of all pairs as one table, 0 outside the points and their coordinates. */
  function Errors(data: seq<Vector>, labels: seq<nat>, classes: nat, log: real -> real): (nat, nat) -> real
    requires |labels| == |data| && InRange(labels, classes)
  {
    (i: nat, j: nat) => if j < |data| && i < |data[j]| then PairError(data, labels, classes, log, i, j) else 0.0
  }

  /** The scan state once every pair before `(i, j)` has been tried, for the errors `err`. */
  function Search(data: seq<Vector>, features: nat, err: (nat, nat) -> real, i: nat, j: nat): ScanState
    requires Wide(data, features)
    requires i <= features && j <= |data| && (i == features ==> j == 0)
    decreases i, j
  {
    if j == 0 then
      if i == 0 then ScanState(None, (0, 0), Split(0, 0.0))
      else Search(data, features, err, i - 1, |data|)
    else
      var s := Search(data, features, err, i, j - 1);
      var e := err(i, j - 1);
      if s.best.None? || e < s.best.value then ScanState(Some(e), (i, j - 1), Split(i, data[j - 1][i]))
      else s
  }

  /** What `findBestSplit` returns. */
  function BestSplit(data: seq<Vector>, labels: seq<nat>, classes: nat, features: nat, log: real -> real): Split
    requires |labels| == |data| && InRange(labels, classes) && Wide(data, features)
  {
    Search(data, features, Errors(data, labels, classes, log), features, 0).split
  }

  /** Entry `(i, j)` of the table is the error of the split at point `j`'s feature `i`. */
  lemma ErrorsAt(data: seq<Vector>, labels: seq<nat>, classes: nat, log: real -> real, i: nat, j: nat)
    requires |labels| == |data| && InRange(labels, classes) && j < |data| && i < |data[j]|
    ensures Errors(data, labels, classes, log)(i, j) == SplitError(data, labels, i, data[j][i], classes, log)
  {
  }

  /** Trying pair `(i, j)` moves to it exactly when its error beats the best so far. */
  lemma SearchStep(data: seq<Vector>, features: nat, err: (nat, nat) -> real, i: nat, j: nat)
    requires Wide(data, features) && i < features && j < |data|
    ensures var s := Search(data, features, err, i, j);
      Search(data, features, err, i, j + 1) ==
        if s.best.None? || err(i, j) < s.best.value then ScanState(Some(err(i, j)), (i, j), Split(i, data[j][i])) else s
  {
  }

  /** One step of `findBestSplit`'s inner loop, in terms of the error it computes. */
  lemma ScanStep(data: seq<Vector>, labels: seq<nat>, classes: nat, features: nat, log: real -> real, s: ScanState, i: nat, j: nat, e: real)
    requires |labels| == |data| && InRange(labels, classes) && Wide(data, features) && i < features && j < |data|
    requires s == Search(data, features, Errors(data, labels, classes, log), i, j)
    requires e == SplitError(data, labels, i, data[j][i], classes, log)
    ensures Search(data, features, Errors(data, labels, classes, log), i, j + 1) ==
      if s.best.None? || e < s.best.value then ScanState(Some(e), (i, j), Split(i, data[j][i])) else s
  {
    ErrorsAt(data, labels, classes, log, i, j);
    SearchStep(data, features, Errors(data, labels, classes, log), i, j);
  }

  /** The next feature starts where the last point of the previous one ends. */
  lemma SearchNext(data: seq<Vector>, features: nat, err: (nat, nat) -> real, i: nat)
    requires Wide(data, features) && i < features
    ensures Search(data, features, err, i + 1, 0) == Search(data, features, err, i, |data|)
  {
  }

  /** The pair `(i', j')` has been tried once the scan reaches `(i, j)` over `n` points. */
  predicate Tried(i': nat, j': nat, i: nat, j: nat, n: nat)
  {
    Before(i', j', i, j) && j' < n
  }

  /** The scan keeps the default split exactly until a pair has been tried. */
  lemma {:induction false} SearchNone(data: seq<Vector>, features: nat, err: (nat, nat) -> real, i: nat, j: nat)
    requires Wide(data, features)
    requires i <= features && j <= |data| && (i == features ==> j == 0)
    decreases i, j
    ensures var s := Search(data, features, err, i, j);
      (s.best.None? <==> j == 0 && (i == 0 || data == [])) &&
      (s.best.None? ==> s.split == Split(0, 0.0))
  {
    if j == 0 && i > 0 {
      SearchNone(data, features, err, i - 1, |data|);
    }
  }

  /** Once a pair has been tried, the scan holds a tried pair, its split and its error. */
  lemma {:induction false} SearchAt(data: seq<Vector>, features: nat, err: (nat, nat) -> real, i: nat, j: nat)
    requires Wide(data, features)
    requires i <= features && j <= |data| && (i == features ==> j == 0)
    decreases i, j
    ensures var s := Search(data, features, err, i, j);
      s.best.Some? ==>
        var (fi, fj) := s.at;
        Tried(fi, fj, i, j, |data|) && fi < features &&
        s.split == Split(fi, data[fj][fi]) &&
        s.best.value == err(fi, fj)
  {
    if j == 0 {
      if i > 0 {
        SearchAt(data, features, err, i - 1, |data|);
      }
    } else {
      SearchAt(data, features, err, i, j - 1);
    }
  }

  /** The error held is at most the error of every pair tried. */
  lemma {:induction false} SearchLeast(data: seq<Vector>, features: nat, err: (nat, nat) -> real, i: nat, j: nat)
    requires Wide(data, features)
    requires i <= features && j <= |data| && (i == features ==> j == 0)
    decreases i, j
    ensures var s := Search(data, features, err, i, j);
      s.best.Some? ==> forall i': nat, j': nat :: Tried(i', j', i, j, |data|) ==> s.best.value <= err(i', j')
  {
    if j == 0 {
      if i > 0 {
        SearchLeast(data, features, err, i - 1, |data|);
        assert forall i': nat, j': nat :: Tried(i', j', i, 0, |data|) ==> Tried(i', j', i - 1, |data|, |data|);
      }
    } else {
      SearchLeast(data, features, err, i, j - 1);
      assert forall i': nat, j': nat :: Tried(i', j', i, j, |data|) ==>
        Tried(i', j', i, j - 1, |data|) || (i' == i && j' == j - 1);
    }
  }

  /** Every pair tried before the one held has a strictly larger error. */
  lemma {:induction false} SearchFirst(data: seq<Vector>, features: nat, err: (nat, nat) -> real, i: nat, j: nat)
    requires Wide(data, features)
    requires i <= features && j <= |data| && (i == features ==> j == 0)
    decreases i, j
    ensures var s := Search(data, features, err, i, j);
      s.best.Some? ==> forall i': nat, j': nat :: Tried(i', j', s.at.0, s.at.1, |data|) ==> s.best.value < err(i', j')
  {
    if j == 0 {
      if i > 0 {
        SearchFirst(data, features, err, i - 1, |data|);
      }
    } else {
      SearchFirst(data, features, err, i, j - 1);
      SearchLeast(data, features, err, i, j - 1);
      SearchNone(data, features, err, i, j - 1);
    }
  }

  /** The finished scan, for any table of errors: the default `{0, 0.0}` when there is
      no feature or no point; otherwise a feature and a threshold equal to that feature of
      some point, whose error is the least of all pairs, and the first such pair in the
      scan order. */
  lemma ScanFacts(data: seq<Vector>, features: nat, err: (nat, nat) -> real)
    requires Wide(data, features)
    ensures features == 0 || data == [] ==> Search(data, features, err, features, 0).split == Split(0, 0.0)
    ensures features > 0 && data != [] ==>
      exists fi: nat, fj: nat :: 0 <= fi < features && 0 <= fj < |data| &&
        Search(data, features, err, features, 0).split == Split(fi, data[fj][fi]) &&
        (forall i': nat, j': nat :: 0 <= i' < features && 0 <= j' < |data| ==> err(fi, fj) <= err(i', j')) &&
        (forall i': nat, j': nat :: Tried(i', j', fi, fj, |data|) ==> err(fi, fj) < err(i', j'))
  {
    SearchNone(data, features, err, features, 0);
    if features > 0 && data != [] {
      SearchAt(data, features, err, features, 0);
      SearchLeast(data, features, err, features, 0);
      SearchFirst(data, features, err, features, 0);
      var s := Search(data, features, err, features, 0);
      var (fi, fj) := s.at;
      assert forall i': nat, j': nat :: 0 <= i' < features && 0 <= j' < |data| ==> Tried(i', j', features, 0, |data|);
      assert fi < features && fj < |data|;
    }
  }

  /** `findBestSplit`: the scan above over the errors of the splits. */
  lemma BestSplitFacts(data: seq<Vector>, labels: seq<nat>, classes: nat, features: nat, log: real -> real)
    requires |labels| == |data| && InRange(labels, classes) && Wide(data, features)
    ensures features == 0 || data == [] ==> BestSplit(data, labels, classes, features, log) == Split(0, 0.0)
    ensures features > 0 && data != [] ==>
      exists fi: nat, fj: nat :: 0 <= fi < features && 0 <= fj < |data| &&
        BestSplit(data, labels, classes, features, log) == Split(fi, data[fj][fi]) &&
        (forall i': nat, j': nat :: 0 <= i' < features && 0 <= j' < |data| ==>
          Errors(data, labels, classes, log)(fi, fj) <= Errors(data, labels, classes, log)(i', j')) &&
        (forall i': nat, j': nat :: Tried(i', j', fi, fj, |data|) ==>
          Errors(data, labels, classes, log)(fi, fj) < Errors(data, labels, classes, log)(i', j'))
  {
    ScanFacts(data, features, Errors(data, labels, classes, log));
  }

  // ---------------------------------------------------------------------------
  // buildTree and walkTree

  /** The tree `buildTree(lData, lLabels, iDepth)` returns, as the recursion `Grow`. */
  function TreeOf(data: seq<Vector>, labels: seq<nat>, depth: nat, classes: nat, features: nat, log: real -> real): Tree
    requires |labels| == |data| && InRange(labels, classes) && Wide(data, features)
  {
    Grow(data, labels, depth, classes, features, log)
  }

  /** `buildTree`'s recursion: a leaf at depth 0 or once the majority error is 0, else a
      node on the best split whose children are grown from the two sides with one level less.
      The specifications name it through `TreeOf`, which is not recursive, so that the
      verifier unfolds it only one level at a time. */
  function Grow(data: seq<Vector>, labels: seq<nat>, depth: nat, classes: nat, features: nat, log: real -> real): Tree
    requires |labels| == |data| && InRange(labels, classes) && Wide(data, features)
    decreases depth
  {
    if depth == 0 || MajorityError(labels, classes, log) == 0.0 then Leaf(Probs(labels, classes))
    else
      var sp := BestSplit(data, labels, classes, features, log);
      var sd := SplitOf(data, labels, sp.feature, sp.threshold);
      SplitKeepsRange(data, labels, sp.feature, sp.threshold, classes);
      SplitKeepsWide(data, labels, sp.feature, sp.threshold, features);
      Node(Grow(sd.leftData, sd.leftLabels, depth - 1, classes, features, log),
           Grow(sd.rightData, sd.rightLabels, depth - 1, classes, features, log),
           sp.feature, sp.threshold)
  }

  /** The leaf case of `TreeOf`. */
  lemma TreeOfLeafCase(data: seq<Vector>, labels: seq<nat>, depth: nat, classes: nat, features: nat, log: real -> real)
    requires |labels| == |data| && InRange(labels, classes) && Wide(data, features)
    requires depth == 0 || MajorityError(labels, classes, log) == 0.0
    ensures TreeOf(data, labels, depth, classes, features, log) == Leaf(Probs(labels, classes))
  {
  }

  /** The node case of `TreeOf`: the children are the trees of the two sides of the best split. */
  lemma TreeOfNodeCase(data: seq<Vector>, labels: seq<nat>, depth: nat, classes: nat, features: nat, log: real -> real,
                       sp: Split, sd: SplitData)
    requires |labels| == |data| && InRange(labels, classes) && Wide(data, features)
    requires depth > 0 && MajorityError(labels, classes, log) != 0.0
    requires sp == BestSplit(data, labels, classes, features, log)
    requires sd == SplitOf(data, labels, sp.feature, sp.threshold)
    ensures TreeOf(data, labels, depth, classes, features, log) ==
      Node(TreeOf(sd.leftData, sd.leftLabels, depth - 1, classes, features, log),
           TreeOf(sd.rightData, sd.rightLabels, depth - 1, classes, features, log), sp.feature, sp.threshold)
  {
  }

  /** The tree is never deeper than `iDepth`. */
  lemma {:induction false} TreeOfHeight(data: seq<Vector>, labels: seq<nat>, depth: nat, classes: nat, features: nat, log: real -> real)
    requires |labels| == |data| && InRange(labels, classes) && Wide(data, features)
    decreases depth
    ensures Height(TreeOf(data, labels, depth, classes, features, log)) <= depth
  {
    if depth == 0 || MajorityError(labels, classes, log) == 0.0 {
      TreeOfLeafCase(data, labels, depth, classes, features, log);
    } else {
      var sp := BestSplit(data, labels, classes, features, log);
      var sd := SplitOf(data, labels, sp.feature, sp.threshold);
      SplitKeepsRange(data, labels, sp.feature, sp.threshold, classes);
      SplitKeepsWide(data, labels, sp.feature, sp.threshold, features);
      TreeOfHeight(sd.leftData, sd.leftLabels, depth - 1, classes, features, log);
      TreeOfHeight(sd.rightData, sd.rightLabels, depth - 1, classes, features, log);
      TreeOfNodeCase(data, labels, depth, classes, features, log, sp, sd);
    }
  }

  /** With a logarithm negative on (0, 1) the tree is a leaf exactly when the depth is 0,
      the label set is empty or it holds one class only. */
  lemma TreeOfLeaf(data: seq<Vector>, labels: seq<nat>, depth: nat, classes: nat, features: nat, log: real -> real)
    requires NegativeOnUnit(log)
    requires |labels| == |data| && InRange(labels, classes) && Wide(data, features)
    ensures TreeOf(data, labels, depth, classes, features, log).Leaf? <==>
      depth == 0 || labels == [] || forall i :: 0 <= i < |labels| ==> labels[i] == labels[0]
  {
    MajorityErrorZeroIff(labels, classes, log);
  }

  /** `walkTree(vecPoint, oNode)`: from a node, the left child when the point's feature
      is at most the threshold, else the right child, until a leaf, which is a leaf of
      the tree. */
  function WalkTree(p: Vector, t: Tree): (r: Tree)
    ensures r.Leaf? && IsLeafOf(r, t)
  {
    match t
    case Leaf(_) => t
    case Node(left, right, f, threshold) =>
      if GoesLeft(p, f, threshold) then WalkTree(p, left) else WalkTree(p, right)
  }

  // ---------------------------------------------------------------------------
  // The helpers. They read only the model's `iNumClasses` and `iNumFeature`, which
  // they take as the parameters `classes` and `features`.

  /** `doSplit(lData, lLabels, iFeatureIndex, fThreshold)`. */
  method DoSplit(data: seq<Vector>, labels: seq<nat>, f: nat, threshold: real) returns (sd: SplitData)
    requires |labels| == |data|
    ensures sd == SplitOf(data, labels, f, threshold)
  {
    sd := SplitData([], [], [], []);
    assert data[..0] == [] && labels[..0] == [];
    var i := 0;
    while i != |data|
      invariant 0 <= i <= |data|
      invariant sd == SplitOf(data[..i], labels[..i], f, threshold)
    {
      SplitStep(data, labels, f, threshold, i);
      if f < |data[i]| && data[i][f] <= threshold {
        sd := sd.(leftData := sd.leftData + [data[i]], leftLabels := sd.leftLabels + [labels[i]]);
      } else {
        sd := sd.(rightData := sd.rightData + [data[i]], rightLabels := sd.rightLabels + [labels[i]]);
      }
      i := i + 1;
    }
    assert data[..|data|] == data && labels[..|labels|] == labels;
  }

  /** `majorityClassifier(lLabels)`: counts the labels into a list of `iNumClasses`
      zeros, divides by the number of labels and keeps the first strictly best class. */
  method MajorityClassifier(labels: seq<nat>, classes: nat) returns (m: Majority)
    requires InRange(labels, classes)
    ensures m == MajorityOf(labels, classes)
  {
    var pred := Utils.FillList(classes, 0.0);
    assert pred == Counts(labels[..0], classes);
    var i := 0;
    while i != |labels|
      invariant 0 <= i <= |labels|
      invariant pred == Counts(labels[..i], classes)
    {
      assert labels[..i + 1] == labels[..i] + [labels[i]];
      CountsSnoc(labels[..i], labels[i], classes);
      pred := pred[labels[i] := pred[labels[i]] + 1.0];
      i := i + 1;
    }
    assert labels[..|labels|] == labels;
    if |labels| == 0 {
      // Every entry is 0 / 0, a NaN, and no NaN is larger than the best value 0.
      return Majority(None, 0);
    }
    ghost var counts := Counts(labels, classes);
    ghost var probs := Probs(labels, classes).value;
    var best := 0.0;
    var top := 0;
    i := 0;
    while i != classes
      invariant 0 <= i <= classes && |pred| == classes
      invariant pred[..i] == probs[..i]
      invariant pred[i..] == counts[i..]
      invariant (top, best) == BestClass(probs[..i])
    {
      BestClassStep(probs, i);
      NormalizeEntry(labels, classes, i);
      assert pred[i] == pred[i..][0];
      pred := pred[i := pred[i] / (|labels| as real)];
      if pred[i] > best {
        best := pred[i];
        top := i;
      }
      i := i + 1;
    }
    assert pred == pred[..classes] && probs == probs[..classes];
    m := Majority(Some(pred), top);
  }

  /** `computeErrorOfMajorityClassifier(lLabels)`. */
  method ComputeErrorOfMajorityClassifier(labels: seq<nat>, classes: nat, log: real -> real) returns (e: real)
    requires InRange(labels, classes)
    ensures e == MajorityError(labels, classes, log)
  {
    var m := MajorityClassifier(labels, classes);
    if m.prediction.None? {
      // No labels: no probability equals 1, the sum is empty and its negation is 0.
      return 0.0;
    }
    var p := m.prediction.value;
    var i := 0;
    while i != classes
      invariant 0 <= i <= classes
      invariant forall c :: 0 <= c < i ==> p[c] != 1.0
    {
      if p[i] == 1.0 {
        return 0.0;
      }
      i := i + 1;
    }
    e := 0.0;
    i := 0;
    while i != |labels|
      invariant 0 <= i <= |labels|
      invariant e == SumPLogP(labels[..i], p, log)
    {
      assert labels[..i + 1][..i] == labels[..i];
      e := e + XLogX(p[labels[i]], log);
      i := i + 1;
    }
    assert labels[..|labels|] == labels;
    e := e * -1.0;
  }

  /** `computeErrorOfSplit(lData, lLabels, iFeatureIndex, fThreshold)`. */
  method ComputeErrorOfSplit(data: seq<Vector>, labels: seq<nat>, f: nat, threshold: real, classes: nat, log: real -> real) returns (e: real)
    requires |labels| == |data| && InRange(labels, classes)
    ensures e == SplitError(data, labels, f, threshold, classes, log)
  {
    var sd := DoSplit(data, labels, f, threshold);
    SplitKeepsRange(data, labels, f, threshold, classes);
    var l := ComputeErrorOfMajorityClassifier(sd.leftLabels, classes, log);
    var r := ComputeErrorOfMajorityClassifier(sd.rightLabels, classes, log);
    e := l + r;
  }

  /** `findBestSplit(lData, lLabels)`: every feature below `iNumFeature` at the value
      of every point, in order, keeping the first strictly smaller error (the initial
      best error being `Infinity`). */
  method FindBestSplit(data: seq<Vector>, labels: seq<nat>, classes: nat, features: nat, log: real -> real) returns (sp: Split)
    requires |labels| == |data| && InRange(labels, classes) && Wide(data, features)
    ensures sp == BestSplit(data, labels, classes, features, log)
  {
    ghost var err := Errors(data, labels, classes, log);
    var s := ScanState(None, (0, 0), Split(0, 0.0));
    var i := 0;
    while i != features
      invariant 0 <= i <= features
      invariant s == Search(data, features, err, i, 0)
    {
      var j := 0;
      while j != |data|
        invariant 0 <= j <= |data|
        invariant s == Search(data, features, err, i, j)
      {
        s := TrySplit(data, labels, classes, features, log, s, i, j);
        j := j + 1;
      }
      SearchNext(data, features, err, i);
      i := i + 1;
    }
    sp := s.split;
  }

  /** The body of `findBestSplit`'s inner loop: the error of splitting on feature `i`
      at the value of point `j`, kept when it is below the best error so far. */
  method TrySplit(data: seq<Vector>, labels: seq<nat>, classes: nat, features: nat, log: real -> real, s: ScanState, i: nat, j: nat) returns (s': ScanState)
    requires |labels| == |data| && InRange(labels, classes) && Wide(data, features)
    requires i < features && j < |data|
    requires s == Search(data, features, Errors(data, labels, classes, log), i, j)
    ensures s' == Search(data, features, Errors(data, labels, classes, log), i, j + 1)
  {
    var e := ComputeErrorOfSplit(data, labels, i, data[j][i], classes, log);
    ScanStep(data, labels, classes, features, log, s, i, j, e);
    s' := s;
    if s.best.None? || e < s.best.value {
      s' := ScanState(Some(e), (i, j), Split(i, data[j][i]));
    }
  }

  /** `createLeaf(lLabels)`: a leaf with the majority classifier's probabilities. */
  method CreateLeaf(labels: seq<nat>, classes: nat) returns (t: Tree)
    requires InRange(labels, classes)
    ensures t == Leaf(Probs(labels, classes))
  {
    var m := MajorityClassifier(labels, classes);
    t := Leaf(m.prediction);
  }

  /** `buildTree(lData, lLabels, iDepth)`. */
  method BuildTree(data: seq<Vector>, labels: seq<nat>, depth: nat, classes: nat, features: nat, log: real -> real) returns (t: Tree)
    requires |labels| == |data| && InRange(labels, classes) && Wide(data, features)
    decreases depth, 1
    ensures t == TreeOf(data, labels, depth, classes, features, log)
  {
    if depth == 0 {
      TreeOfLeafCase(data, labels, depth, classes, features, log);
      t := CreateLeaf(labels, classes);
      return;
    }
    var e := ComputeErrorOfMajorityClassifier(labels, classes, log);
    if e == 0.0 {
      TreeOfLeafCase(data, labels, depth, classes, features, log);
      t := CreateLeaf(labels, classes);
      return;
    }
    t := BuildNode(data, labels, depth, classes, features, log);
  }

  /** The rest of `buildTree` once neither stopping test holds: the best split, the
      data split on it and the two subtrees. */
  method BuildNode(data: seq<Vector>, labels: seq<nat>, depth: nat, classes: nat, features: nat, log: real -> real) returns (t: Tree)
    requires |labels| == |data| && InRange(labels, classes) && Wide(data, features)
    requires depth > 0 && MajorityError(labels, classes, log) != 0.0
    decreases depth, 0
    ensures t == TreeOf(data, labels, depth, classes, features, log)
  {
    var sp := FindBestSplit(data, labels, classes, features, log);
    var sd := DoSplit(data, labels, sp.feature, sp.threshold);
    SplitKeepsRange(data, labels, sp.feature, sp.threshold, classes);
    SplitKeepsWide(data, labels, sp.feature, sp.threshold, features);
    var left := BuildTree(sd.leftData, sd.leftLabels, depth - 1, classes, features, log);
    var right := BuildTree(sd.rightData, sd.rightLabels, depth - 1, classes, features, log);
    TreeOfNodeCase(data, labels, depth, classes, features, log, sp, sd);
    t := Node(left, right, sp.feature, sp.threshold);
  }

  // ---------------------------------------------------------------------------
  // The model

  class DecisionTreeModel {
    var numClasses: nat
    var numFeature: nat
    var ready: bool
    var root: Option<Tree>

    /** The model is ready exactly when it holds a tree. */
    ghost predicate Valid()
      reads this
    {
      ready <==> root.Some?
    }

    constructor()
      ensures Valid()
      ensures numClasses == 0 && numFeature == 0 && !ready && root == None
    {
      numClasses := 0;
      numFeature := 0;
      ready := false;
      root := None;
    }

    /** `Fit(lData, lLabels, iDepth, iNumClasses, iNumFeature)`: stores the class and
        feature counts, builds the tree and becomes ready. */
    method Fit(data: seq<Vector>, labels: seq<nat>, depth: nat, classes: nat, features: nat, log: real -> real)
      requires |labels| == |data| && InRange(labels, classes) && Wide(data, features)
      modifies this
      ensures Valid()
      ensures numClasses == classes && numFeature == features && ready
      ensures root == Some(TreeOf(data, labels, depth, classes, features, log))
    {
      numClasses := classes;
      numFeature := features;
      var t := BuildTree(data, labels, depth, numClasses, numFeature, log);
      root := Some(t);
      ready := true;
    }

    /** `IsReady()`: whether `Fit` has run, which for a valid model is whether it holds a tree. */
    function IsReady(): (r: bool)
      reads this
      ensures r == ready
      ensures Valid() ==> (r <==> root.Some?)
    {
      ready
    }

    /** `Predict(vecPoint)`: throws before `Fit`; otherwise the prediction of the leaf
        that `walkTree` reaches from the root. */
    method Predict(p: Vector) returns (r: Result<Option<seq<real>>>)
      ensures root.None? <==> r.Err?
      ensures r.Err? ==> r.error == "Tree has no been initialized"
      ensures r.Ok? ==> r.value == WalkTree(p, root.value).prediction && IsLeafOf(Leaf(r.value), root.value)
    {
      if root.None? {
        return Err("Tree has no been initialized");
      }
      var leaf := WalkTree(p, root.value);
      return Ok(leaf.prediction);
    }
  }
}
