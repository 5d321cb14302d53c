/** The learning-vector-quantisation model `vml_LVQ1`.

  Every class owns a block of `iNumPrototypes` prototypes, the blocks laid out
  class after class. A point belongs to the class of its nearest prototype (the
  lowest index among equally near ones), and one training step moves that
  winning prototype towards the sample when the classes agree and away from it
  when they do not. The initial prototypes, drawn at random in the source, are a
  parameter of `Reset`; the random sample index is a parameter of `FitStep`.
 */
module Lvq {
  import opened Vectors
  import opened VmlMath
  import opened Utils
  import opened Wrappers

  /** The prototype labels `Reset` lays out: `np` copies of 0, then of 1, ..., then of `nc - 1`. */
  function ClassBlocks(nc: nat, np: nat): seq<nat>
  {
    if nc == 0 then [] else ClassBlocks(nc - 1, np) + seq(np, _ => nc - 1)
  }

  /** The index of the `j`-th prototype of class `i` with `np` prototypes per class. */
  function Slot(i: nat, np: nat, j: nat): nat
  {
    i * np + j
  }

  /** The block layout: `nc * np` labels, the `j`-th prototype of class `i` sitting at
      index `i * np + j`, and every label a class below `nc`. */
  lemma {:induction false} ClassBlocksAt(nc: nat, np: nat)
    ensures |ClassBlocks(nc, np)| == nc * np
    ensures forall i, j :: 0 <= i < nc && 0 <= j < np ==> Slot(i, np, j) < nc * np && ClassBlocks(nc, np)[Slot(i, np, j)] == i
    ensures forall p :: 0 <= p < |ClassBlocks(nc, np)| ==> ClassBlocks(nc, np)[p] < nc
  {
    if nc > 0 {
      ClassBlocksAt(nc - 1, np);
      var prev := ClassBlocks(nc - 1, np);
      assert |prev| + np == nc * np;
      forall i, j | 0 <= i < nc && 0 <= j < np
        ensures Slot(i, np, j) < nc * np && ClassBlocks(nc, np)[Slot(i, np, j)] == i
      {
        MulLess(i, nc, np, j);
        var blocks := ClassBlocks(nc, np);
        assert blocks == prev + seq(np, _ => nc - 1);
        if i == nc - 1 {
          assert i * np == |prev|;
          assert blocks[i * np + j] == seq(np, _ => nc - 1)[j];
        } else {
          MulLess(i, nc - 1, np, j);
          assert blocks[i * np + j] == prev[i * np + j];
        }
      }
    }
  }

  /** The distances `math.distance(vecPoint, lPrototypes[j])` of a point to every prototype. */
  function Dists(protos: seq<Vector>, p: Vector, sqrt: real -> real): (r: seq<real>)
    requires forall j :: 0 <= j < |protos| ==> |protos[j]| == |p|
    ensures |r| == |protos|
  {
    seq(|protos|, j requires 0 <= j < |protos| => Distance(p, protos[j], sqrt))
  }

  /** The winning prototype: the lowest index of the smallest distance, and 0 when
      there is no prototype at all. */
  function Winner(protos: seq<Vector>, p: Vector, sqrt: real -> real): (r: nat)
    requires forall j :: 0 <= j < |protos| ==> |protos[j]| == |p|
    ensures protos != [] ==> IsFirstMin(Dists(protos, p, sqrt), r)
  {
    if protos == [] then 0 else MinIndex(Dists(protos, p, sqrt))
  }

  /** The winner after one update: moved by `lambda` times the offset to the sample,
      towards it when `attract` holds and away from it otherwise. */
  function Moved(w: Vector, x: Vector, lambda: real, attract: bool): (r: Vector)
    requires |w| == |x|
    ensures |r| == |w|
  {
    var delta := Scale(Sub(x, w), lambda);
    Add(w, if attract then delta else Scale(delta, -1.0))
  }

  /** Each coordinate of the moved prototype is `w + lambda (x - w)` when attracted and
      `w - lambda (x - w)` when repelled. */
  lemma MovedAt(w: Vector, x: Vector, lambda: real, attract: bool, k: nat)
    requires |w| == |x| && k < |w|
    ensures attract ==> Moved(w, x, lambda, attract)[k] == w[k] + lambda * (x[k] - w[k])
    ensures !attract ==> Moved(w, x, lambda, attract)[k] == w[k] - lambda * (x[k] - w[k])
  {
  }

  /** The step scales the offset of the prototype from the sample by `1 - lambda` when
      attracted and by `1 + lambda` when repelled, so its squared distance to the sample
      is multiplied by `(1 - lambda)^2` or `(1 + lambda)^2`: for `0 < lambda < 2` an
      attracted prototype never moves away, and a repelled one never comes nearer. */
  lemma MovedDistance(w: Vector, x: Vector, lambda: real, attract: bool)
    requires |w| == |x|
    ensures attract ==> SqDist(Moved(w, x, lambda, attract), x) == Sq(1.0 - lambda) * SqDist(w, x)
    ensures !attract ==> SqDist(Moved(w, x, lambda, attract), x) == Sq(1.0 + lambda) * SqDist(w, x)
  {
    var m := Moved(w, x, lambda, attract);
    if attract {
      MovedOffset(w, x, lambda, attract, 1.0 - lambda);
      ScaledOffset(w, x, m, 1.0 - lambda);
    } else {
      MovedOffset(w, x, lambda, attract, 1.0 + lambda);
      ScaledOffset(w, x, m, 1.0 + lambda);
    }
  }

  /** The moved prototype's offset from the sample is the old offset times `f`. */
  lemma MovedOffset(w: Vector, x: Vector, lambda: real, attract: bool, f: real)
    requires |w| == |x| && f == if attract then 1.0 - lambda else 1.0 + lambda
    ensures Sub(Moved(w, x, lambda, attract), x) == Scale(Sub(w, x), f)
  {
    var m := Moved(w, x, lambda, attract);
    forall k | 0 <= k < |w|
      ensures Sub(m, x)[k] == Scale(Sub(w, x), f)[k]
    {
      MovedAt(w, x, lambda, attract, k);
      OffsetScaled(w[k], x[k], lambda, attract);
    }
  }

  lemma ScaledOffset(w: Vector, x: Vector, m: Vector, f: real)
    requires |w| == |x| == |m| && Sub(m, x) == Scale(Sub(w, x), f)
    ensures SqDist(m, x) == Sq(f) * SqDist(w, x)
  {
    SumSqScale(Sub(w, x), f);
  }

  lemma OffsetScaled(wk: real, xk: real, lambda: real, attract: bool)
    ensures attract ==> wk + lambda * (xk - wk) - xk == (wk - xk) * (1.0 - lambda)
    ensures !attract ==> wk - lambda * (xk - wk) - xk == (wk - xk) * (1.0 + lambda)
  {
  }

  /** An attracted winner comes no farther from the sample, for every step size in [0, 2]. */
  lemma AttractDoesNotMoveAway(w: Vector, x: Vector, lambda: real)
    requires |w| == |x| && 0.0 <= lambda <= 2.0
    ensures SqDist(Moved(w, x, lambda, true), x) <= SqDist(w, x)
  {
    MovedDistance(w, x, lambda, true);
    SumSqNonNeg(Sub(w, x));
    var f := 1.0 - lambda;
    assert -1.0 <= f <= 1.0;
    assert Sq(f) <= 1.0 by {
      if f >= 0.0 {
        MulMono(f, 1.0, f);
        assert f * f <= 1.0 * f;
      } else {
        MulMono(-f, 1.0, -f);
        assert (-f) * (-f) == f * f;
        assert f * f <= 1.0 * -f;
      }
      assert Sq(f) == f * f;
    }
    MulMono(Sq(f), 1.0, SqDist(w, x));
  }

  /** A repelled winner comes no nearer to the sample, for every non-negative step size. */
  lemma RepelDoesNotMoveCloser(w: Vector, x: Vector, lambda: real)
    requires |w| == |x| && lambda >= 0.0
    ensures SqDist(Moved(w, x, lambda, false), x) >= SqDist(w, x)
  {
    MovedDistance(w, x, lambda, false);
    SumSqNonNeg(Sub(w, x));
    var f := 1.0 + lambda;
    MulMono(1.0, f, f);
    MulMono(1.0, Sq(f), SqDist(w, x));
  }

  /** The class-probability vector `Predict` returns: every entry 0 but a 1 at `c`. */
  function OneHot(n: nat, c: nat): (r: Vector)
    requires c < n
    ensures |r| == n
  {
    Zeros(n)[c := 1.0]
  }

  /** A one-hot vector sums to 1 and its first maximum is the marked class. */
  lemma OneHotFacts(n: nat, c: nat)
    requires c < n
    ensures Sum(OneHot(n, c)) == 1.0
    ensures IsFirstMax(OneHot(n, c), c) && MaxIndex(OneHot(n, c)) == c
  {
    SumZeros(n);
    SumUpdate(Zeros(n), c, 1.0);
    assert Zeros(n)[c := Zeros(n)[c] + 1.0] == OneHot(n, c);
    FirstMaxUnique(OneHot(n, c), c, MaxIndex(OneHot(n, c)));
  }

  /** The loops of `Reset`: for each class in turn, `np` draws taken in order and
      labelled with the class. */
  method Layout(init: seq<Vector>, nc: nat, np: nat) returns (protos: seq<Vector>, ls: seq<nat>)
    requires |init| == nc * np
    ensures protos == init && ls == ClassBlocks(nc, np)
  {
    protos := [];
    ls := [];
    var i := 0;
    while i != nc
      invariant 0 <= i <= nc
      invariant i * np <= nc * np && protos == init[..i * np]
      invariant ls == ClassBlocks(i, np)
    {
      var j := 0;
      while j != np
        invariant 0 <= j <= np
        invariant i * np + j <= nc * np && protos == init[..i * np + j]
        invariant ls == ClassBlocks(i, np) + seq(j, _ => i)
      {
        MulLess(i, nc, np, j);
        protos := protos + [init[i * np + j]];
        ls := ls + [i];
        j := j + 1;
      }
      assert i * np + np == (i + 1) * np;
      i := i + 1;
    }
    assert init[..nc * np] == init;
  }

  class LvqModel {
    var data: seq<Vector>
    var labels: seq<nat>
    var numClasses: nat
    var prototypes: seq<Vector>
    var protoLabels: seq<nat>
    var numPrototypes: nat
    var dim: nat
    var pdist: nat
    var ready: bool

    /** Every prototype has a label below the number of classes and `iDim` coordinates. */
    ghost predicate Valid()
      reads this
    {
      |protoLabels| == |prototypes| &&
      (forall p :: 0 <= p < |protoLabels| ==> protoLabels[p] < numClasses) &&
      (forall p :: 0 <= p < |prototypes| ==> |prototypes[p]| == dim)
    }

    constructor()
      ensures Valid()
      ensures data == [] && labels == [] && numClasses == 0 && prototypes == [] && protoLabels == []
      ensures numPrototypes == 0 && dim == 0 && pdist == 2 && !ready
    {
      data := [];
      labels := [];
      numClasses := 0;
      prototypes := [];
      protoLabels := [];
      numPrototypes := 0;
      dim := 0;
      pdist := 2;
      ready := false;
    }

    /** `Init(lData, lLabels, iDim, iNumClasses, iNumPrototypes)`: stores the arguments,
        resets the prototypes to the draws `init` and sets the model ready. */
    method Init(d: seq<Vector>, l: seq<nat>, dm: nat, nc: nat, np: nat, init: seq<Vector>)
      requires |init| == nc * np && forall k :: 0 <= k < |init| ==> |init[k]| == dm
      modifies this
      ensures Valid() && ready
      ensures data == d && labels == l && dim == dm && numClasses == nc && numPrototypes == np
      ensures prototypes == init && protoLabels == ClassBlocks(nc, np)
      ensures pdist == old(pdist)
    {
      data := d;
      labels := l;
      numClasses := nc;
      dim := dm;
      numPrototypes := np;
      Reset(init);
      ready := true;
    }

    /** `Reset()`: `iNumPrototypes` fresh prototypes per class, class after class,
        taken in order from the draws `init`. */
    method Reset(init: seq<Vector>)
      requires |init| == numClasses * numPrototypes
      requires forall k :: 0 <= k < |init| ==> |init[k]| == dim
      modifies this
      ensures Valid()
      ensures prototypes == init && protoLabels == ClassBlocks(numClasses, numPrototypes)
      ensures data == old(data) && labels == old(labels) && numClasses == old(numClasses)
      ensures numPrototypes == old(numPrototypes) && dim == old(dim) && pdist == old(pdist) && ready == old(ready)
    {
      var protos, ls := Layout(init, numClasses, numPrototypes);
      ClassBlocksAt(numClasses, numPrototypes);
      prototypes := protos;
      protoLabels := ls;
    }

    /** `FindWinner(vecPoint)`: the nearest prototype, the first one on a tie, or 0
        without prototypes. The distance starts at `Infinity`, written `None` here, so
        the first prototype always replaces it; afterwards only a strictly smaller
        distance does. */
    method FindWinner(p: Vector, sqrt: real -> real) returns (r: nat)
      requires Valid() && |p| == dim
      ensures r == Winner(prototypes, p, sqrt)
      ensures prototypes != [] ==> r < |prototypes| && IsFirstMin(Dists(prototypes, p, sqrt), r)
    {
      var ds := Dists(prototypes, p, sqrt);
      r := 0;
      var best: Option<real> := None;
      var j := 0;
      while j != |prototypes|
        invariant 0 <= j <= |prototypes|
        invariant j == 0 <==> best.None?
        invariant j > 0 ==> r < j && best == Some(ds[r]) && IsFirstMin(ds[..j], r)
        invariant j == 0 ==> r == 0
      {
        var d := Distance(p, prototypes[j], sqrt);
        assert d == ds[j];
        FirstMinExtend(ds, r, j);
        if best.None? || d < best.value {
          r := j;
          best := Some(d);
        }
        j := j + 1;
      }
      if prototypes != [] {
        assert ds[..|prototypes|] == ds;
        FirstMinUnique(ds, r, MinIndex(ds));
      }
    }

    /** `FitStep(fLambda)` on the sample `iIndex`: only the winning prototype moves,
        towards the sample when the winner's label equals the sample's label and away
        otherwise. A missing label compares as different. */
    method FitStep(lambda: real, index: nat, sqrt: real -> real)
      requires Valid() && index < |data| && |data[index]| == dim && prototypes != []
      modifies this
      ensures Valid()
      ensures var x, w := old(data)[index], Winner(old(prototypes), old(data)[index], sqrt);
        var attract := index < |old(labels)| && old(protoLabels)[w] == old(labels)[index];
        w < |old(prototypes)| && prototypes == old(prototypes)[w := Moved(old(prototypes)[w], x, lambda, attract)]
      ensures data == old(data) && labels == old(labels) && protoLabels == old(protoLabels) && numClasses == old(numClasses)
      ensures numPrototypes == old(numPrototypes) && dim == old(dim) && pdist == old(pdist) && ready == old(ready)
    {
      var x := data[index];
      var i := FindWinner(x, sqrt);
      var pred := protoLabels[i];
      var attract := index < |labels| && pred == labels[index];
      var delta := Scale(Sub(x, prototypes[i]), lambda);
      if !attract {
        delta := Scale(delta, -1.0);
      }
      prototypes := prototypes[i := Add(prototypes[i], delta)];
    }

    /** `Predict(vecPoint)`: the one-hot vector of the winner's class; all zeros when
        there is no prototype, the source then writing to an `undefined` key. */
    method Predict(p: Vector, sqrt: real -> real) returns (r: Vector)
      requires Valid() && |p| == dim
      ensures prototypes == [] ==> r == Zeros(numClasses)
      ensures prototypes != [] ==> var w := Winner(prototypes, p, sqrt);
        w < |protoLabels| && protoLabels[w] < numClasses && r == OneHot(numClasses, protoLabels[w])
    {
      var i := FindWinner(p, sqrt);
      var pred := FillList(numClasses, 0.0);
      assert pred == Zeros(numClasses);
      if i < |protoLabels| {
        pred := pred[protoLabels[i] := 1.0];
      }
      r := pred;
    }
  }

  /** A prediction with prototypes is a probability vector whose most likely class is
      the label of the nearest prototype. */
  lemma PredictIsWinnerClass(protos: seq<Vector>, protoLabels: seq<nat>, nc: nat, p: Vector, sqrt: real -> real)
    requires |protoLabels| == |protos| && protos != []
    requires forall j :: 0 <= j < |protos| ==> |protos[j]| == |p|
    requires forall j :: 0 <= j < |protoLabels| ==> protoLabels[j] < nc
    ensures var c := protoLabels[Winner(protos, p, sqrt)];
      c < nc && Sum(OneHot(nc, c)) == 1.0 && MaxIndex(OneHot(nc, c)) == c
  {
    OneHotFacts(nc, protoLabels[Winner(protos, p, sqrt)]);
  }
}
