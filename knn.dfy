/** The k-nearest-neighbour model `vml_knn`.

  `FindKnn` feeds every training point, in order, to `insert`, which keeps a
  neighbour list sorted by distance and at most `k` long. The list's evolution is
  the fold `KnnOf` of the function `Inserted` over the candidates; the methods are
  proved against these functions and the lemmas state what the fold keeps.
 */
module Knn {
  import opened Vectors
  import opened Wrappers

  /** A neighbour record `{x, t, d}`: the point, its label and its distance to the query. */
  datatype Neighbor = Neighbor(x: Vector, t: real, d: real)

  /** Which predictor the `Predict` field has last been set to. */
  datatype PredictMode = Unset | Regression | Classification

  /** The list is sorted by non-decreasing distance. */
  predicate Sorted(l: seq<Neighbor>)
  {
    forall i, j :: 0 <= i < j < |l| ==> l[i].d <= l[j].d
  }

  function Min(a: nat, b: nat): nat
  {
    if a <= b then a else b
  }

  /** `myDistance(a, b)` is defined: 1-D points need a first coordinate in `b`,
      all others need two points of the same dimension. */
  predicate DistanceDefined(a: Vector, b: Vector)
  {
    if |a| == 1 then |b| >= 1 else |a| == |b|
  }

  /** `myDistance(a, b)`: `|a[0] - b[0]|` for a 1-D `a`, the Euclidean distance otherwise. */
  function MyDistance(a: Vector, b: Vector, sqrt: real -> real): real
    requires DistanceDefined(a, b)
  {
    if |a| == 1 then Abs(a[0] - b[0]) else Distance(a, b, sqrt)
  }

  /** With a sound square root the 1-D special case agrees with the Euclidean distance,
      and `myDistance` is a non-negative, symmetric function of equally long points. */
  lemma MyDistanceIsEuclidean(a: Vector, b: Vector, sqrt: real -> real)
    requires |a| == |b| && SoundSqrt(sqrt)
    ensures MyDistance(a, b, sqrt) == Distance(a, b, sqrt)
    ensures MyDistance(a, b, sqrt) >= 0.0
    ensures MyDistance(a, b, sqrt) == MyDistance(b, a, sqrt)
  {
    SumSqNonNeg(Sub(a, b));
    SqDistComm(a, b);
    if |a| == 1 {
      var e := a[0] - b[0];
      assert Sub(a, b)[..0] == [];
      assert SqDist(a, b) == Sq(e);
      var r := sqrt(Sq(e));
      SquarePositive(e);
      assert Sq(r) == Sq(e) && r >= 0.0;
      assert Sq(Abs(e)) == Sq(e);
      SquareInjective(r, Abs(e));
    }
  }

  /** The index of the first entry at least `dist` away, or `|l|` when there is none. */
  function FirstAtLeast(l: seq<Neighbor>, dist: real): (i: nat)
    ensures i <= |l|
    ensures forall j :: 0 <= j < i ==> l[j].d < dist
    ensures i < |l| ==> l[i].d >= dist
  {
    if l == [] then 0
    else if l[0].d >= dist then 0
    else 1 + FirstAtLeast(l[1..], dist)
  }

  /** The list after `insert(lKnn, x, t, d)` with capacity `k`: the candidate is spliced
      in before the first entry at least as far, the list popped if it grew past `k`;
      when no such entry exists it is appended only if the list is not full. */
  function Inserted(l: seq<Neighbor>, n: Neighbor, k: nat): seq<Neighbor>
  {
    var i := FirstAtLeast(l, n.d);
    if i < |l| then
      var s := l[..i] + [n] + l[i..];
      if |s| > k then s[..|s| - 1] else s
    else if |l| < k then l + [n]
    else l
  }

  /** What one insertion throws away: the popped last entry, or the candidate itself. */
  function Dropped(l: seq<Neighbor>, n: Neighbor, k: nat): multiset<Neighbor>
  {
    var i := FirstAtLeast(l, n.d);
    if i < |l| then
      var s := l[..i] + [n] + l[i..];
      if |s| > k then multiset{s[|s| - 1]} else multiset{}
    else if |l| < k then multiset{}
    else multiset{n}
  }

  /** The neighbour list after feeding the candidates, in order, to `insert`. */
  function KnnOf(c: seq<Neighbor>, k: nat): seq<Neighbor>
  {
    if c == [] then [] else Inserted(KnnOf(c[..|c| - 1], k), c[|c| - 1], k)
  }

  /** Every candidate that some insertion threw away. */
  function DroppedOf(c: seq<Neighbor>, k: nat): multiset<Neighbor>
  {
    if c == [] then multiset{} else DroppedOf(c[..|c| - 1], k) + Dropped(KnnOf(c[..|c| - 1], k), c[|c| - 1], k)
  }

  /** An insertion changes the list's contents by adding the candidate and removing
      what it drops. */
  lemma InsertedContents(l: seq<Neighbor>, n: Neighbor, k: nat)
    ensures multiset(Inserted(l, n, k)) + Dropped(l, n, k) == multiset(l) + multiset{n}
  {
    var i := FirstAtLeast(l, n.d);
    if i < |l| {
      var s := l[..i] + [n] + l[i..];
      assert l == l[..i] + l[i..];
      assert multiset(s) == multiset(l[..i]) + multiset{n} + multiset(l[i..]);
      assert multiset(l) == multiset(l[..i]) + multiset(l[i..]);
      if |s| > k {
        assert s == s[..|s| - 1] + [s[|s| - 1]];
      }
    }
  }

  /** An insertion into a sorted list keeps it sorted, and keeps it within the capacity. */
  lemma InsertedSortedBounded(l: seq<Neighbor>, n: Neighbor, k: nat)
    requires Sorted(l) && |l| <= k
    ensures Sorted(Inserted(l, n, k))
    ensures |Inserted(l, n, k)| == Min(|l| + 1, k)
  {
    var i := FirstAtLeast(l, n.d);
    if i < |l| {
      var s := l[..i] + [n] + l[i..];
      assert forall j :: 0 <= j < |s| ==> s[j] == (if j < i then l[j] else if j == i then n else l[j - 1]);
    }
  }

  /** The candidate goes right after the entries strictly nearer than it, so it precedes
      any entry at the same distance; the entries after it keep their order. */
  lemma InsertedPlacement(l: seq<Neighbor>, n: Neighbor, k: nat)
    requires |l| <= k && FirstAtLeast(l, n.d) < |l|
    ensures var i, r := FirstAtLeast(l, n.d), Inserted(l, n, k);
      i < |r| && r[..i] == l[..i] && r[i] == n &&
      (forall j :: 0 <= j < i ==> l[j].d < n.d) &&
      (forall j :: i < j < |r| ==> r[j] == l[j - 1])
  {
  }

  /** A full list stays unchanged when the candidate is farther than every entry. */
  lemma InsertedFullFarther(l: seq<Neighbor>, n: Neighbor, k: nat)
    requires |l| == k && forall j :: 0 <= j < |l| ==> l[j].d < n.d
    ensures Inserted(l, n, k) == l
  {
  }

  /** Whatever an insertion drops is at least as far as everything it keeps. */
  lemma DroppedIsFarthest(l: seq<Neighbor>, n: Neighbor, k: nat)
    requires Sorted(l) && |l| <= k
    ensures forall e, j :: e in Dropped(l, n, k) && 0 <= j < |Inserted(l, n, k)| ==> Inserted(l, n, k)[j].d <= e.d
  {
    var i := FirstAtLeast(l, n.d);
    if i < |l| {
      var s := l[..i] + [n] + l[i..];
      assert forall j :: 0 <= j < |s| ==> s[j] == (if j < i then l[j] else if j == i then n else l[j - 1]);
      InsertedSortedBounded(l, n, k);
    }
  }

  /** Every discarded entry is at least as far as every kept one. */
  ghost predicate NoneNearer(kept: seq<Neighbor>, out: multiset<Neighbor>)
  {
    forall e, j :: e in out && 0 <= j < |kept| ==> kept[j].d <= e.d
  }

  /** One insertion keeps the invariant that nothing dropped is nearer than something
      kept, provided that something has been dropped only from a full list. */
  lemma InsertedNoneNearer(l: seq<Neighbor>, out: multiset<Neighbor>, n: Neighbor, k: nat)
    requires Sorted(l) && |l| <= k && NoneNearer(l, out)
    requires out != multiset{} ==> |l| == k
    ensures NoneNearer(Inserted(l, n, k), out + Dropped(l, n, k))
  {
    var r := Inserted(l, n, k);
    InsertedContents(l, n, k);
    DroppedIsFarthest(l, n, k);
    forall e, j | e in out + Dropped(l, n, k) && 0 <= j < |r|
      ensures r[j].d <= e.d
    {
      if e in out {
        KeptNearerThanOut(l, out, n, k, e, r[j]);
      }
    }
  }

  /** An entry an insertion keeps is no farther than anything dropped earlier: it was in
      the list already, or it is the candidate, spliced in before an entry of the full list. */
  lemma KeptNearerThanOut(l: seq<Neighbor>, out: multiset<Neighbor>, n: Neighbor, k: nat, e: Neighbor, x: Neighbor)
    requires |l| <= k && NoneNearer(l, out) && e in out && |l| == k
    requires multiset(Inserted(l, n, k)) + Dropped(l, n, k) == multiset(l) + multiset{n}
    requires x in multiset(Inserted(l, n, k))
    ensures x.d <= e.d
  {
    assert x in multiset(l) + multiset{n};
    if x in multiset(l) {
      var q :| 0 <= q < |l| && l[q] == x;
    } else {
      assert x == n;
      var i := FirstAtLeast(l, n.d);
      if i == |l| {
        assert false;
      }
      assert l[i].d <= e.d;
    }
  }

  /** The fold keeps `min(k, n)` candidates, sorted, and drops the rest. */
  lemma {:induction false} KnnOfShape(c: seq<Neighbor>, k: nat)
    ensures |KnnOf(c, k)| == Min(|c|, k)
    ensures Sorted(KnnOf(c, k))
  {
    if c != [] {
      var p, n := c[..|c| - 1], c[|c| - 1];
      KnnOfShape(p, k);
      var l := KnnOf(p, k);
      assert KnnOf(c, k) == Inserted(l, n, k);
      InsertedSortedBounded(l, n, k);
    }
  }

  lemma MultisetStep<T>(r: multiset<T>, drop: multiset<T>, l: multiset<T>, out: multiset<T>, p: multiset<T>, n: multiset<T>)
    requires l + out == p && r + drop == l + n
    ensures r + (out + drop) == p + n
  {
    forall x
      ensures (r + (out + drop))[x] == (p + n)[x]
    {
      assert (r + drop)[x] == (l + n)[x];
      assert (l + out)[x] == p[x];
    }
  }

  lemma MultisetDifference<T>(a: multiset<T>, b: multiset<T>, c: multiset<T>)
    requires a + b == c
    ensures a <= c && c - a == b
  {
    forall x
      ensures (c - a)[x] == b[x]
    {
      assert c[x] == a[x] + b[x];
    }
  }

  /** Something was dropped only if the list is full. */
  lemma DroppedOnlyWhenFull(l: seq<Neighbor>, out: multiset<Neighbor>, p: seq<Neighbor>, k: nat)
    requires multiset(l) + out == multiset(p) && |l| == Min(|p|, k)
    ensures out != multiset{} ==> |l| == k
  {
    assert |multiset(l) + out| == |multiset(l)| + |out|;
    assert |multiset(p)| == |p|;
    assert |multiset(l)| == |l|;
  }

  lemma {:induction false} KnnOfContents(c: seq<Neighbor>, k: nat)
    ensures multiset(KnnOf(c, k)) + DroppedOf(c, k) == multiset(c)
  {
    if c != [] {
      var p, n := c[..|c| - 1], c[|c| - 1];
      KnnOfContents(p, k);
      assert c == p + [n];
      ContentsStep(KnnOf(p, k), DroppedOf(p, k), p, n, k);
    }
  }

  /** The step of `KnnOfContents`: feeding one more candidate adds it to what is kept
      or dropped. */
  lemma ContentsStep(l: seq<Neighbor>, out: multiset<Neighbor>, p: seq<Neighbor>, n: Neighbor, k: nat)
    requires multiset(l) + out == multiset(p)
    ensures multiset(Inserted(l, n, k)) + (out + Dropped(l, n, k)) == multiset(p + [n])
  {
    InsertedContents(l, n, k);
    assert multiset(p + [n]) == multiset(p) + multiset{n};
    MultisetStep(multiset(Inserted(l, n, k)), Dropped(l, n, k), multiset(l), out, multiset(p), multiset{n});
  }

  /** The fold drops nothing nearer than a candidate it keeps. */
  lemma {:induction false} KnnOfNoneNearer(c: seq<Neighbor>, k: nat)
    ensures NoneNearer(KnnOf(c, k), DroppedOf(c, k))
  {
    if c != [] {
      var p, n := c[..|c| - 1], c[|c| - 1];
      KnnOfNoneNearer(p, k);
      KnnOfShape(p, k);
      KnnOfContents(p, k);
      var l, out := KnnOf(p, k), DroppedOf(p, k);
      assert KnnOf(c, k) == Inserted(l, n, k);
      assert DroppedOf(c, k) == out + Dropped(l, n, k);
      DroppedOnlyWhenFull(l, out, p, k);
      InsertedNoneNearer(l, out, n, k);
    }
  }

  /** `FindKnn`'s promise: the first `min(k, n)` candidates by distance, sorted, taken from
      the candidates, with every candidate left out at least as far as every one kept. */
  lemma KnnOfNearest(c: seq<Neighbor>, k: nat)
    ensures |KnnOf(c, k)| == Min(|c|, k) && Sorted(KnnOf(c, k))
    ensures multiset(KnnOf(c, k)) <= multiset(c)
    ensures NoneNearer(KnnOf(c, k), multiset(c) - multiset(KnnOf(c, k)))
  {
    KnnOfShape(c, k);
    KnnOfContents(c, k);
    KnnOfNoneNearer(c, k);
    MultisetDifference(multiset(KnnOf(c, k)), DroppedOf(c, k), multiset(c));
  }

  /** The candidates `FindKnn` feeds to `insert`: each training point with its label and
      its distance to the query. */
  function Candidates(p: Vector, data: seq<Vector>, labels: seq<real>, sqrt: real -> real): (c: seq<Neighbor>)
    requires |labels| == |data| && forall i :: 0 <= i < |data| ==> DistanceDefined(p, data[i])
    ensures |c| == |data|
  {
    seq(|data|, i requires 0 <= i < |data| => Neighbor(data[i], labels[i], MyDistance(p, data[i], sqrt)))
  }

  function SumLabels(l: seq<Neighbor>): real
  {
    if l == [] then 0.0 else SumLabels(l[..|l| - 1]) + l[|l| - 1].t
  }

  /** The loop both predictions run over the neighbours: the sum of their labels. */
  method LabelSum(knn: seq<Neighbor>) returns (pred: real)
    ensures pred == SumLabels(knn)
  {
    pred := 0.0;
    var i := 0;
    while i != |knn|
      invariant 0 <= i <= |knn|
      invariant pred == SumLabels(knn[..i])
    {
      assert knn[..i + 1][..i] == knn[..i];
      pred := pred + knn[i].t;
      i := i + 1;
    }
    assert knn[..|knn|] == knn;
  }

  /** The class probabilities of a vote sum: `[1, 0]` below 0, `[0.5, 0.5]` at 0, `[0, 1]` above. */
  function VoteToProbs(vote: real): (r: seq<real>)
    ensures |r| == 2 && r[0] + r[1] == 1.0 && 0.0 <= r[0] <= 1.0 && 0.0 <= r[1] <= 1.0
    ensures vote < 0.0 <==> r[0] > r[1]
    ensures vote > 0.0 <==> r[0] < r[1]
  {
    if vote < 0.0 then [1.0, 0.0] else if vote == 0.0 then [0.5, 0.5] else [0.0, 1.0]
  }

  class KnnModel {
    var k: nat
    var data: seq<Vector>
    var labels: seq<real>
    var predict: PredictMode
    var ready: bool

    constructor()
      ensures k == 1 && data == [] && labels == [] && predict == Unset && !ready
    {
      k := 1;
      data := [];
      labels := [];
      predict := Unset;
      ready := false;
    }

    /** `Init(lData, lLabel, iK)`: stores the training set and `k`, and becomes ready. */
    method Init(d: seq<Vector>, l: seq<real>, kk: nat)
      modifies this
      ensures k == kk && data == d && labels == l && ready && predict == old(predict)
    {
      k := kk;
      data := d;
      labels := l;
      ready := true;
    }

    /** `insert(lKnn, x1, t1, fDist)` with this model's `k`. */
    method Insert(l: seq<Neighbor>, x: Vector, t: real, dist: real) returns (r: seq<Neighbor>)
      ensures r == Inserted(l, Neighbor(x, t, dist), k)
      ensures Sorted(l) && |l| <= k ==> Sorted(r) && |r| == Min(|l| + 1, k)
    {
      var n := Neighbor(x, t, dist);
      var i := 0;
      while i != |l|
        invariant 0 <= i <= |l|
        invariant forall j :: 0 <= j < i ==> l[j].d < dist
      {
        if l[i].d >= dist {
          r := l[..i] + [n] + l[i..];
          if |r| > k {
            r := r[..|r| - 1];
          }
          assert i == FirstAtLeast(l, dist);
          if Sorted(l) && |l| <= k {
            InsertedSortedBounded(l, n, k);
          }
          return;
        }
        i := i + 1;
      }
      assert FirstAtLeast(l, dist) == |l|;
      r := l;
      if |r| < k {
        r := r + [n];
      }
      if Sorted(l) && |l| <= k {
        InsertedSortedBounded(l, n, k);
      }
    }

    /** `FindKnn(vecPoint)`: the `min(k, n)` training points nearest to `p`, sorted by
        distance, with no point left out nearer than a point kept. */
    method FindKnn(p: Vector, sqrt: real -> real) returns (r: seq<Neighbor>)
      requires |labels| == |data| && forall i :: 0 <= i < |data| ==> DistanceDefined(p, data[i])
      ensures r == KnnOf(Candidates(p, data, labels, sqrt), k)
      ensures |r| == Min(|data|, k) && Sorted(r)
      ensures multiset(r) <= multiset(Candidates(p, data, labels, sqrt))
      ensures NoneNearer(r, multiset(Candidates(p, data, labels, sqrt)) - multiset(r))
    {
      var c := Candidates(p, data, labels, sqrt);
      r := [];
      var i := 0;
      while i != |data|
        invariant 0 <= i <= |data|
        invariant r == KnnOf(c[..i], k)
      {
        assert c[..i + 1][..i] == c[..i];
        r := Insert(r, data[i], labels[i], MyDistance(p, data[i], sqrt));
        i := i + 1;
      }
      assert c[..|data|] == c;
      KnnOfNearest(c, k);
    }

    /** `PredictRegression(vecPoint)`: the neighbours' label sum divided by `k`, not by the
        number of neighbours found; `k == 0` divides by zero (`None`). Sets `Predict`. */
    method PredictRegression(p: Vector, sqrt: real -> real) returns (r: Option<real>)
      requires |labels| == |data| && forall i :: 0 <= i < |data| ==> DistanceDefined(p, data[i])
      modifies this
      ensures k == old(k) && data == old(data) && labels == old(labels) && ready == old(ready)
      ensures predict == Regression
      ensures r.None? <==> k == 0
      ensures r.Some? ==> r.value == SumLabels(KnnOf(Candidates(p, data, labels, sqrt), k)) / (k as real)
    {
      predict := Regression;
      var knn := FindKnn(p, sqrt);
      var pred := LabelSum(knn);
      if k == 0 {
        return None;
      }
      return Some(pred / (k as real));
    }

    /** `PredictClassification(vecPoint)`: the vote sum of the neighbours' labels mapped to
        class probabilities by `VoteToProbs`. Sets `Predict`. */
    method PredictClassification(p: Vector, sqrt: real -> real) returns (r: seq<real>)
      requires |labels| == |data| && forall i :: 0 <= i < |data| ==> DistanceDefined(p, data[i])
      modifies this
      ensures k == old(k) && data == old(data) && labels == old(labels) && ready == old(ready)
      ensures predict == Classification
      ensures r == VoteToProbs(SumLabels(KnnOf(Candidates(p, data, labels, sqrt), k)))
    {
      predict := Classification;
      var knn := FindKnn(p, sqrt);
      var pred := LabelSum(knn);
      if pred < 0.0 {
        r := [1.0, 0.0];
      } else if pred == 0.0 {
        r := [0.5, 0.5];
      } else {
        r := [0.0, 1.0];
      }
    }
  }
}
