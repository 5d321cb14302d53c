/** The k-means model `vml_KMeans` on two-dimensional points.

  One `FitStep` is a step of Lloyd's algorithm: every point is assigned to the
  centre `Predict` gives it (its own loop over the centres, whose running best
  distance starts at the sentinel -1), the points are summed and counted per
  centre in the accumulators `lTempMean` and `lTempLabelCount`, every centre
  becomes its sum times the reciprocal of its count, and the accumulators are
  cleared again. The step is specified by the function `Lloyd` of the data and
  the old centres.

  A cluster that receives no point is divided by a zero count: `1.0 / 0` is
  `Infinity` and `0 * Infinity` is `NaN`, so such a centre becomes a vector of
  `NaN`s, written `None` here. Comparisons with `NaN` are false, which the
  centre scan `Scan` follows exactly. The random initial centres of `Init` are a
  parameter.
 */
module KMeans {
  import opened Vectors
  import opened VmlMath
  import opened Wrappers
  import opened Seqs
  import Utils

  /** `iDim`: points and centres have two coordinates. */
  const Dim: nat := 2

  /** A centre, `None` standing for the vector of `NaN`s an empty cluster gets. */
  type Centre = Option<Vector>

  /** Every defined centre has `Dim` coordinates. */
  predicate WellShaped(centres: seq<Centre>)
  {
    forall i :: 0 <= i < |centres| ==> centres[i].Some? ==> |centres[i].value| == Dim
  }

  /** Every point has `Dim` coordinates. */
  predicate Points(data: seq<Vector>)
  {
    forall i :: 0 <= i < |data| ==> |data[i]| == Dim
  }

  /** Every defined centre has as many coordinates as the point. */
  predicate Fits(centres: seq<Centre>, p: Vector)
  {
    forall i :: 0 <= i < |centres| ==> centres[i].Some? ==> |centres[i].value| == |p|
  }

  /** `math.distance(lCenters[i], vecPoint)`, `None` (`NaN`) for a `NaN` centre. */
  function CentreDist(c: Centre, p: Vector, sqrt: real -> real): Option<real>
    requires c.Some? ==> |c.value| == |p|
  {
    if c.None? then None else Some(Distance(c.value, p, sqrt))
  }

  function Dists(centres: seq<Centre>, p: Vector, sqrt: real -> real): (r: seq<Option<real>>)
    requires Fits(centres, p)
    ensures |r| == |centres|
  {
    seq(|centres|, i requires 0 <= i < |centres| => CentreDist(centres[i], p, sqrt))
  }

  /** The state of the centre scan: the best index and the best distance so far. */
  datatype Best = Best(index: nat, dist: Option<real>)

  /** The test `fDist < fCurDist || fCurDist == -1` on possibly-`NaN` numbers. */
  predicate Improves(d: Option<real>, cur: Option<real>)
  {
    (d.Some? && cur.Some? && d.value < cur.value) || cur == Some(-1.0)
  }

  /** The scan of `Predict` over the distances: it starts from index 0 and the
      sentinel -1 and takes every entry that passes `Improves`. */
  function Scan(ds: seq<Option<real>>): (r: Best)
    ensures ds != [] ==> r.index < |ds|
    ensures ds == [] ==> r.index == 0
  {
    if ds == [] then Best(0, Some(-1.0))
    else
      var b := Scan(ds[..|ds| - 1]);
      if Improves(ds[|ds| - 1], b.dist) then Best(|ds| - 1, ds[|ds| - 1]) else b
  }

  /** The cluster `Predict` assigns a point to. */
  function Nearest(centres: seq<Centre>, p: Vector, sqrt: real -> real): nat
    requires Fits(centres, p)
  {
    Scan(Dists(centres, p, sqrt)).index
  }

  /** The distances to centres that are all defined. */
  function RealDists(centres: seq<Centre>, p: Vector, sqrt: real -> real): (r: seq<real>)
    requires Fits(centres, p)
    requires forall i :: 0 <= i < |centres| ==> centres[i].Some?
    ensures |r| == |centres|
  {
    seq(|centres|, i requires 0 <= i < |centres| => Distance(centres[i].value, p, sqrt))
  }

  /** On non-negative distances the sentinel is replaced by the first one, after which
      only strictly smaller distances are taken: the scan ends at the first minimum. */
  lemma {:induction false} ScanOfDistances(ds: seq<Option<real>>, rs: seq<real>)
    requires |ds| == |rs| && rs != []
    requires forall i :: 0 <= i < |rs| ==> ds[i] == Some(rs[i]) && rs[i] >= 0.0
    ensures Scan(ds) == Best(Utils.MinIndex(rs), Some(rs[Utils.MinIndex(rs)]))
  {
    var n := |rs| - 1;
    if n > 0 {
      ScanOfDistances(ds[..n], rs[..n]);
      assert rs[..n][Utils.MinIndex(rs[..n])] == rs[Utils.MinIndex(rs[..n])];
    } else {
      assert ds[..0] == [];
    }
  }

  /** With all centres defined and a sound square root, `Predict` returns the lowest
      index of the nearest centre. */
  lemma NearestIsFirstMin(centres: seq<Centre>, p: Vector, sqrt: real -> real)
    requires Fits(centres, p) && centres != [] && SoundSqrt(sqrt)
    requires forall i :: 0 <= i < |centres| ==> centres[i].Some?
    ensures Nearest(centres, p, sqrt) == Utils.MinIndex(RealDists(centres, p, sqrt))
    ensures Utils.IsFirstMin(RealDists(centres, p, sqrt), Nearest(centres, p, sqrt))
  {
    var rs := RealDists(centres, p, sqrt);
    forall i | 0 <= i < |rs|
      ensures Dists(centres, p, sqrt)[i] == Some(rs[i]) && rs[i] >= 0.0
    {
      SumSqNonNeg(Sub(centres[i].value, p));
    }
    ScanOfDistances(Dists(centres, p, sqrt), rs);
  }

  /** A `NaN` distance in first place is never replaced: no later distance compares
      below `NaN`, and the sentinel is gone. */
  lemma {:induction false} ScanFromNaN(ds: seq<Option<real>>)
    requires ds != [] && ds[0] == None
    ensures Scan(ds) == Best(0, None)
  {
    var n := |ds| - 1;
    if n > 0 {
      ScanFromNaN(ds[..n]);
    } else {
      assert ds[..0] == [];
    }
  }

  /** Once the first centre is a `NaN` centre, every point is assigned to cluster 0. */
  lemma NaNFirstCentreTakesAll(centres: seq<Centre>, p: Vector, sqrt: real -> real)
    requires Fits(centres, p) && centres != [] && centres[0].None?
    ensures Nearest(centres, p, sqrt) == 0
  {
    ScanFromNaN(Dists(centres, p, sqrt));
  }

  /** When the first centre is defined and distances are non-negative, the scan never
      settles on a `NaN` centre: a later `NaN` distance fails both tests. */
  lemma {:induction false} ScanSkipsNaN(ds: seq<Option<real>>)
    requires ds != [] && ds[0].Some? && ds[0].value >= 0.0
    requires forall i :: 0 <= i < |ds| ==> ds[i].Some? ==> ds[i].value >= 0.0
    ensures Scan(ds).dist.Some? && Scan(ds).dist.value >= 0.0
    ensures ds[Scan(ds).index] == Scan(ds).dist
  {
    var n := |ds| - 1;
    if n > 0 {
      ScanSkipsNaN(ds[..n]);
    } else {
      assert ds[..0] == [];
    }
  }

  /** With a defined first centre and a sound square root, `Predict` picks a defined centre. */
  lemma NearestIsDefined(centres: seq<Centre>, p: Vector, sqrt: real -> real)
    requires Fits(centres, p) && centres != [] && centres[0].Some? && SoundSqrt(sqrt)
    ensures Nearest(centres, p, sqrt) < |centres| && centres[Nearest(centres, p, sqrt)].Some?
  {
    var ds := Dists(centres, p, sqrt);
    forall i | 0 <= i < |ds| && ds[i].Some?
      ensures ds[i].value >= 0.0
    {
      SumSqNonNeg(Sub(centres[i].value, p));
    }
    ScanSkipsNaN(ds);
  }

  /** The cluster of every point. */
  function Assign(data: seq<Vector>, centres: seq<Centre>, sqrt: real -> real): (r: seq<nat>)
    requires Points(data) && WellShaped(centres)
    ensures |r| == |data|
  {
    seq(|data|, i requires 0 <= i < |data| => Nearest(centres, data[i], sqrt))
  }

  /** The sum of the points assigned to `c`, accumulated in order from the zero vector. */
  function ClusterSum(pts: seq<Vector>, assign: seq<nat>, c: nat): (r: Vector)
    requires |assign| == |pts| && Points(pts)
    ensures |r| == Dim
  {
    if pts == [] then Zeros(Dim)
    else
      var n := |pts| - 1;
      var s := ClusterSum(pts[..n], assign[..n], c);
      if assign[n] == c then Add(s, pts[n]) else s
  }

  /** `MultiplyScalar(lTempMean[i], 1.0 / lTempLabelCount[i])`; a zero count gives the
      `NaN` centre. */
  function NewCentre(sum: Vector, n: nat): Centre
  {
    if n == 0 then None else Some(Scale(sum, 1.0 / n as real))
  }

  /** The centres after one step of Lloyd's algorithm. */
  function Lloyd(data: seq<Vector>, centres: seq<Centre>, sqrt: real -> real): (r: seq<Centre>)
    requires Points(data) && WellShaped(centres)
    ensures |r| == |centres|
  {
    var a := Assign(data, centres, sqrt);
    seq(|centres|, c requires 0 <= c < |centres| => NewCentre(ClusterSum(data, a, c), Count(a, c)))
  }

  /** The labels list after writing `a` over its first entries, the rest kept. */
  function Overwrite(l: seq<nat>, a: seq<nat>): (r: seq<nat>)
    ensures |r| >= |a| && r[..|a|] == a
  {
    a + (if |l| > |a| then l[|a|..] else [])
  }

  /** A cluster without points sums to the zero vector. */
  lemma {:induction false} EmptyClusterSum(pts: seq<Vector>, assign: seq<nat>, c: nat)
    requires |assign| == |pts| && Points(pts) && Count(assign, c) == 0
    ensures ClusterSum(pts, assign, c) == Zeros(Dim)
  {
    if pts != [] {
      var n := |pts| - 1;
      assert assign == assign[..n] + [assign[n]];
      CountSnoc(assign[..n], assign[n], c);
      EmptyClusterSum(pts[..n], assign[..n], c);
    }
  }

  /** Lloyd's step leaves a centre undefined exactly when no point is assigned to it. */
  lemma LloydUndefinedIff(data: seq<Vector>, centres: seq<Centre>, sqrt: real -> real, c: nat)
    requires Points(data) && WellShaped(centres) && c < |centres|
    ensures Lloyd(data, centres, sqrt)[c].None? <==> c !in Assign(data, centres, sqrt)
  {
    CountFacts(Assign(data, centres, sqrt), c);
  }

  /** Scaling a sum by the reciprocal of a positive count gives the mean. */
  lemma NewCentreIsMean(sum: Vector, n: nat)
    requires n > 0
    ensures NewCentre(sum, n).Some? && |NewCentre(sum, n).value| == |sum|
    ensures forall k :: 0 <= k < |sum| ==> NewCentre(sum, n).value[k] * (n as real) == sum[k]
  {
    var centre := Scale(sum, 1.0 / n as real);
    forall k | 0 <= k < |sum|
      ensures centre[k] * (n as real) == sum[k]
    {
      var sk, ck := sum[k], centre[k];
      assert ck == sk * (1.0 / n as real);
      MulInverse(sk, n as real);
    }
  }

  lemma MulInverse(s: real, n: real)
    requires n > 0.0
    ensures s * (1.0 / n) * n == s
  {
  }

  /** Counting one more assignment to `c` adds the point to its sum. */
  lemma ClusterSumSnoc(pts: seq<Vector>, assign: seq<nat>, i: nat, c: nat)
    requires |assign| == |pts| && Points(pts) && i < |pts|
    ensures ClusterSum(pts[..i + 1], assign[..i + 1], c) ==
      if assign[i] == c then Add(ClusterSum(pts[..i], assign[..i], c), pts[i]) else ClusterSum(pts[..i], assign[..i], c)
  {
    assert pts[..i + 1][..i] == pts[..i];
    assert assign[..i + 1][..i] == assign[..i];
  }

  /** Storing at the first index past `a` extends the overwritten prefix by one. */
  lemma OverwriteSnoc(l: seq<nat>, a: seq<nat>, v: nat)
    ensures var o := Overwrite(l, a);
      (if |a| < |o| then o[|a| := v] else o + [v]) == Overwrite(l, a + [v])
  {
  }

  /** The loop of `Predict`. */
  method NearestCentre(centres: seq<Centre>, p: Vector, sqrt: real -> real) returns (r: nat)
    requires Fits(centres, p)
    ensures r == Nearest(centres, p, sqrt)
  {
    var ds := Dists(centres, p, sqrt);
    r := 0;
    var cur: Option<real> := Some(-1.0);
    var i := 0;
    while i != |centres|
      invariant 0 <= i <= |centres|
      invariant Best(r, cur) == Scan(ds[..i])
    {
      var d := CentreDist(centres[i], p, sqrt);
      assert d == ds[i] && ds[..i + 1][..i] == ds[..i];
      assert Scan(ds[..i + 1]) == if Improves(d, cur) then Best(i, d) else Best(r, cur);
      if Improves(d, cur) {
        r := i;
        cur := d;
      }
      i := i + 1;
    }
    assert ds[..|centres|] == ds;
  }

  /** One pass of the expectation step: point `i` is assigned, added to its cluster's
      sum and counted. */
  method AccumulatePoint(data: seq<Vector>, centres: seq<Centre>, sqrt: real -> real, i: nat,
                         labels: seq<nat>, sums: seq<Vector>, counts: seq<nat>)
    returns (labels': seq<nat>, sums': seq<Vector>, counts': seq<nat>)
    requires Points(data) && WellShaped(centres) && i < |data| && centres != []
    requires |centres| <= |sums| && |centres| <= |counts|
    requires var a := Assign(data, centres, sqrt);
      forall c :: 0 <= c < |centres| ==> sums[c] == ClusterSum(data[..i], a[..i], c) && counts[c] == Count(a[..i], c)
    ensures |sums'| == |sums| && |counts'| == |counts|
    ensures var a := Assign(data, centres, sqrt);
      forall c :: 0 <= c < |centres| ==> sums'[c] == ClusterSum(data[..i + 1], a[..i + 1], c) && counts'[c] == Count(a[..i + 1], c)
    ensures forall c :: |centres| <= c < |sums| ==> sums'[c] == sums[c]
    ensures forall c :: |centres| <= c < |counts| ==> counts'[c] == counts[c]
    ensures labels' == if i < |labels| then labels[i := Assign(data, centres, sqrt)[i]] else labels + [Assign(data, centres, sqrt)[i]]
  {
    var a := Nearest(centres, data[i], sqrt);
    labels' := if i < |labels| then labels[i := a] else labels + [a];
    sums' := sums[a := Add(sums[a], data[i])];
    counts' := counts[a := counts[a] + 1];
    ghost var asg := Assign(data, centres, sqrt);
    assert asg[..i + 1] == asg[..i] + [a];
    forall c | 0 <= c < |centres|
      ensures sums'[c] == ClusterSum(data[..i + 1], asg[..i + 1], c) && counts'[c] == Count(asg[..i + 1], c)
    {
      ClusterSumSnoc(data, asg, i, c);
      CountSnoc(asg[..i], a, c);
    }
  }

  /** The expectation step of `FitStep`: every point, in order, is assigned, its label
      stored at its index, and added to its cluster's sum and count. Starting from
      cleared accumulators, they end as the sums and counts of the clusters. */
  method Expectation(data: seq<Vector>, centres: seq<Centre>, sqrt: real -> real,
                     labels: seq<nat>, sums: seq<Vector>, counts: seq<nat>)
    returns (labels': seq<nat>, sums': seq<Vector>, counts': seq<nat>)
    requires Points(data) && WellShaped(centres) && (centres != [] || data == [])
    requires |centres| <= |sums| && |centres| <= |counts|
    requires forall c :: 0 <= c < |centres| ==> sums[c] == Zeros(Dim) && counts[c] == 0
    ensures labels' == Overwrite(labels, Assign(data, centres, sqrt))
    ensures |sums'| == |sums| && |counts'| == |counts|
    ensures var a := Assign(data, centres, sqrt);
      forall c :: 0 <= c < |centres| ==> sums'[c] == ClusterSum(data, a, c) && counts'[c] == Count(a, c)
    ensures forall c :: |centres| <= c < |sums| ==> sums'[c] == sums[c]
    ensures forall c :: |centres| <= c < |counts| ==> counts'[c] == counts[c]
  {
    ghost var a := Assign(data, centres, sqrt);
    labels', sums', counts' := labels, sums, counts;
    assert a[..0] == [];
    var i := 0;
    while i != |data|
      invariant 0 <= i <= |data|
      invariant labels' == Overwrite(labels, a[..i])
      invariant |sums'| == |sums| && |counts'| == |counts|
      invariant forall c :: 0 <= c < |centres| ==> sums'[c] == ClusterSum(data[..i], a[..i], c) && counts'[c] == Count(a[..i], c)
      invariant forall c :: |centres| <= c < |sums| ==> sums'[c] == sums[c]
      invariant forall c :: |centres| <= c < |counts| ==> counts'[c] == counts[c]
    {
      OverwriteSnoc(labels, a[..i], a[i]);
      assert a[..i + 1] == a[..i] + [a[i]];
      labels', sums', counts' := AccumulatePoint(data, centres, sqrt, i, labels', sums', counts');
      i := i + 1;
    }
    assert data[..|data|] == data && a[..|data|] == a;
  }

  /** The maximisation step of `FitStep`: each of the `k` centres becomes its sum scaled by
      the reciprocal of its count, and its accumulators are cleared. */
  method Maximization(k: nat, centres: seq<Centre>, sums: seq<Vector>, counts: seq<nat>)
    returns (centres': seq<Centre>, sums': seq<Vector>, counts': seq<nat>)
    requires |centres| == k && k <= |sums| && k <= |counts|
    ensures |centres'| == k && forall c :: 0 <= c < k ==> centres'[c] == NewCentre(sums[c], counts[c])
    ensures |sums'| == |sums| && |counts'| == |counts|
    ensures forall c :: 0 <= c < k ==> sums'[c] == Zeros(Dim) && counts'[c] == 0
    ensures forall c :: k <= c < |sums| ==> sums'[c] == sums[c]
    ensures forall c :: k <= c < |counts| ==> counts'[c] == counts[c]
  {
    centres', sums', counts' := centres, sums, counts;
    var i := 0;
    while i != k
      invariant 0 <= i <= k
      invariant |centres'| == k && |sums'| == |sums| && |counts'| == |counts|
      invariant forall c :: 0 <= c < i ==> centres'[c] == NewCentre(sums[c], counts[c])
      invariant forall c :: 0 <= c < i ==> sums'[c] == Zeros(Dim) && counts'[c] == 0
      invariant forall c :: i <= c < |sums| ==> sums'[c] == sums[c]
      invariant forall c :: i <= c < |counts| ==> counts'[c] == counts[c]
    {
      var n := counts'[i];
      centres' := centres'[i := if n == 0 then None else Some(Scale(sums'[i], 1.0 / n as real))];
      sums' := sums'[i := Zeros(Dim)];
      counts' := counts'[i := 0];
      i := i + 1;
    }
  }

  class KMeansModel {
    var numCenter: nat
    var centres: seq<Centre>
    var data: seq<Vector>
    var labels: seq<nat>
    var tempMean: seq<Vector>
    var tempCount: seq<nat>
    var ready: bool

    /** Defined centres have `Dim` coordinates and the accumulators are all cleared
        between steps. */
    ghost predicate Valid()
      reads this
    {
      WellShaped(centres) && |tempMean| == |tempCount| &&
      (forall c :: 0 <= c < |tempMean| ==> tempMean[c] == Zeros(Dim)) &&
      (forall c :: 0 <= c < |tempCount| ==> tempCount[c] == 0)
    }

    /** After `Init`: one centre per cluster and an accumulator for each. */
    ghost predicate Initialized()
      reads this
    {
      |centres| == numCenter <= |tempMean|
    }

    constructor()
      ensures Valid()
      ensures numCenter == 1 && centres == [] && data == [] && labels == []
      ensures tempMean == [] && tempCount == [] && !ready
    {
      numCenter := 1;
      centres := [];
      data := [];
      labels := [];
      tempMean := [];
      tempCount := [];
      ready := false;
    }

    /** `Init(lData, iNumCluster)`: the centres become the draws `init`; a cleared
        accumulator pair is pushed per cluster, after those of any earlier `Init`, which
        are not removed. The labels of an earlier fit are kept too. */
    method Init(d: seq<Vector>, k: nat, init: seq<Vector>)
      requires Valid() && |init| == k && Points(init)
      modifies this
      ensures Valid() && Initialized() && ready
      ensures numCenter == k && data == d && labels == old(labels)
      ensures centres == seq(k, i requires 0 <= i < k => Some(init[i]))
      ensures tempMean == old(tempMean) + seq(k, _ => Zeros(Dim))
      ensures tempCount == old(tempCount) + seq(k, _ => 0)
    {
      numCenter := k;
      data := d;
      var cs: seq<Centre> := [];
      var tm, tc := tempMean, tempCount;
      var i := 0;
      while i != k
        invariant 0 <= i <= k
        invariant cs == seq(i, j requires 0 <= j < i => Some(init[j]))
        invariant tm == old(tempMean) + seq(i, _ => Zeros(Dim))
        invariant tc == old(tempCount) + seq(i, _ => 0)
      {
        tm := tm + [Zeros(Dim)];
        tc := tc + [0];
        cs := cs + [Some(init[i])];
        i := i + 1;
      }
      centres := cs;
      tempMean := tm;
      tempCount := tc;
      ready := true;
    }

    method IsReady() returns (r: bool)
      ensures r == ready
    {
      r := ready;
    }

    /** `Predict(vecPoint)`: the cluster of the point. */
    method Predict(p: Vector, sqrt: real -> real) returns (r: nat)
      requires Valid() && |centres| == numCenter && (centres == [] || |p| == Dim)
      ensures Fits(centres, p) && r == Nearest(centres, p, sqrt)
      ensures centres != [] ==> r < |centres|
    {
      r := NearestCentre(centres, p, sqrt);
    }

    /** `FitStep()`: one step of Lloyd's algorithm. The labels of the points are stored
        over the first entries of the label list, the centres become `Lloyd` of the old
        ones and the accumulators are cleared again. */
    method FitStep(sqrt: real -> real)
      requires Valid() && Initialized() && Points(data) && (numCenter > 0 || data == [])
      modifies this
      ensures data == old(data) && numCenter == old(numCenter) && ready == old(ready)
      ensures Valid() && Initialized()
      ensures centres == Lloyd(data, old(centres), sqrt)
      ensures labels == Overwrite(old(labels), Assign(data, old(centres), sqrt))
      ensures tempMean == old(tempMean) && tempCount == old(tempCount)
    {
      var ls, sums, counts := Expectation(data, centres, sqrt, labels, tempMean, tempCount);
      var cs, sums', counts' := Maximization(numCenter, centres, sums, counts);
      ghost var next := Lloyd(data, centres, sqrt);
      assert forall c :: 0 <= c < |cs| ==> cs[c] == next[c];
      assert cs == next;
      assert sums' == tempMean;
      assert counts' == tempCount;
      labels := ls;
      centres := cs;
      tempMean := sums';
      tempCount := counts';
    }
  }

  /** Lloyd's step keeps the defined centres two-dimensional. */
  lemma LloydWellShaped(data: seq<Vector>, centres: seq<Centre>, sqrt: real -> real)
    requires Points(data) && WellShaped(centres)
    ensures WellShaped(Lloyd(data, centres, sqrt))
  {
  }
}
