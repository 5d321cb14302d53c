/** The data set editor of the `Components/DataGen` page (`vml_DataGen`).

  The editor keeps the points of two classes, A and B, and a history stack of the
  classes points were added to, which `Undo` pops. Export hands on the points of A
  followed by those of B, labelled 0 and 1; import clears both classes, scales the
  imported points and sorts them by their labels, recording each in the history.
 */
module ComponentDataGen {
  import opened Vectors
  import opened Wrappers
  import Utils
  import CsvFile
  import Text

  /** A history entry: the class a point went to. */
  datatype Tag = A | B

  /** A label as an importer hands it on: a number, text (the CSV importer keeps
      labels as text) or `undefined` (a missing label). */
  datatype Label = Num(real) | Str(string) | Undefined

  /** `lLabels[i] == 0` in JavaScript: loose equality reads text as a number
      (`toNumber`, `None` for `NaN`); `undefined` equals no number. */
  predicate IsZero(l: Label, toNumber: string -> Option<real>)
  {
    match l
    case Num(x) => x == 0.0
    case Str(s) => toNumber(s) == Some(0.0)
    case Undefined => false
  }

  /** `lLabels[i]`, `undefined` past the end. */
  function LabelAt(labels: seq<Label>, i: nat): Label
  {
    if i < |labels| then labels[i] else Undefined
  }

  /** The editor's state: the two classes' points and the history. */
  datatype State = State(a: seq<Vector>, b: seq<Vector>, history: seq<Tag>)

  /** How many entries of `h` are `t`. */
  function Count(h: seq<Tag>, t: Tag): (r: nat)
    ensures r <= |h|
  {
    if h == [] then 0 else Count(h[..|h| - 1], t) + (if h[|h| - 1] == t then 1 else 0)
  }

  /** The history accounts for every point: one `A` entry per point of A, one `B` entry per point of B. */
  predicate Consistent(s: State)
  {
    Count(s.history, A) == |s.a| && Count(s.history, B) == |s.b|
  }

  /** `Array.prototype.pop` on a list: the last entry removed, an empty list left alone. */
  function Pop<T>(s: seq<T>): (r: seq<T>)
    ensures |r| == if s == [] then 0 else |s| - 1
  {
    if s == [] then [] else s[..|s| - 1]
  }

  /** `InsertNewDataPoint(vecPoint, bClassA)`. */
  function Insert(s: State, p: Vector, isA: bool): State
  {
    if isA then State(s.a + [p], s.b, s.history + [A]) else State(s.a, s.b + [p], s.history + [B])
  }

  /** `Undo()`: the last history entry popped and a point popped from its class. */
  function UndoOf(s: State): State
  {
    if s.history == [] then s
    else if s.history[|s.history| - 1] == A then State(Pop(s.a), s.b, Pop(s.history))
    else State(s.a, Pop(s.b), Pop(s.history))
  }

  /** Both classes emptied, the history kept: `Reset()`, and the start of both importers. */
  function Cleared(s: State): State
  {
    State([], [], s.history)
  }

  /** The importers' loop over the scaled points: a point whose label equals 0 goes
      to A, any other to B, each with its history entry. */
  function PartitionOf(s: State, data: seq<Vector>, labels: seq<Label>, toNumber: string -> Option<real>): State
  {
    if data == [] then s
    else
      var prev := PartitionOf(s, data[..|data| - 1], labels, toNumber);
      Insert(prev, data[|data| - 1], IsZero(LabelAt(labels, |data| - 1), toNumber))
  }

  /** `n` copies of `t`. */
  function Repeat(t: Tag, n: nat): (r: seq<Tag>)
    ensures |r| == n && forall i :: 0 <= i < n ==> r[i] == t
  {
    seq(n, _ => t)
  }

  /** The labels the exporters write: 0 for each point of A, then 1 for each point of B. */
  function ExportLabels(na: nat, nb: nat): (r: seq<real>)
    ensures |r| == na + nb
  {
    seq(na, _ => 0.0) + seq(nb, _ => 1.0)
  }

  // ---------------------------------------------------------------------------
  // Properties of the operations
  // ---------------------------------------------------------------------------

  lemma CountSnoc(h: seq<Tag>, x: Tag, t: Tag)
    ensures Count(h + [x], t) == Count(h, t) + if x == t then 1 else 0
  {
    assert (h + [x])[..|h|] == h;
  }

  /** An insertion adds one point and its history entry, so the history stays consistent. */
  lemma InsertConsistent(s: State, p: Vector, isA: bool)
    ensures Consistent(Insert(s, p, isA)) <==> Consistent(s)
  {
    CountSnoc(s.history, if isA then A else B, A);
    CountSnoc(s.history, if isA then A else B, B);
  }

  /** `Undo` takes back the last insertion whatever the state. */
  lemma UndoInsert(s: State, p: Vector, isA: bool)
    ensures UndoOf(Insert(s, p, isA)) == s
  {
    var t := Insert(s, p, isA);
    assert Pop(t.history) == s.history;
    assert isA ==> Pop(t.a) == s.a;
    assert !isA ==> Pop(t.b) == s.b;
  }

  /** `Undo` keeps a consistent history consistent: the popped entry names a class
      that has a point to pop. */
  lemma UndoConsistent(s: State)
    requires Consistent(s)
    ensures Consistent(UndoOf(s))
  {
    if s.history != [] {
      var h, x := s.history[..|s.history| - 1], s.history[|s.history| - 1];
      assert s.history == h + [x];
      CountSnoc(h, x, A);
      CountSnoc(h, x, B);
    }
  }

  lemma CountBoth(h: seq<Tag>)
    ensures Count(h, A) + Count(h, B) == |h|
  {
    if h != [] {
      CountBoth(h[..|h| - 1]);
    }
  }

  /** After `Reset` the history is consistent exactly when it is empty: the entries
      it keeps no longer match any point. */
  lemma ResetConsistent(s: State)
    ensures Consistent(Cleared(s)) <==> s.history == []
  {
    CountBoth(s.history);
  }

  /** The loop sends every point to exactly one class, in order, and records its class. */
  lemma {:induction false} PartitionShape(s: State, data: seq<Vector>, labels: seq<Label>, toNumber: string -> Option<real>)
    ensures var r := PartitionOf(s, data, labels, toNumber);
      |r.a| + |r.b| == |s.a| + |s.b| + |data| && |r.history| == |s.history| + |data| &&
      r.history[..|s.history|] == s.history &&
      forall i :: 0 <= i < |data| ==>
        (r.history[|s.history| + i] == A <==> IsZero(LabelAt(labels, i), toNumber))
  {
    if data != [] {
      var n := |data| - 1;
      PartitionShape(s, data[..n], labels, toNumber);
      var prev := PartitionOf(s, data[..n], labels, toNumber);
      var r := PartitionOf(s, data, labels, toNumber);
      assert r.history[..|prev.history|] == prev.history;
      forall i | 0 <= i < |data|
        ensures r.history[|s.history| + i] == A <==> IsZero(LabelAt(labels, i), toNumber)
      {
        if i < n {
          assert r.history[|s.history| + i] == prev.history[|s.history| + i];
        }
      }
    }
  }

  /** The loop keeps a consistent history consistent. */
  lemma {:induction false} PartitionConsistent(s: State, data: seq<Vector>, labels: seq<Label>, toNumber: string -> Option<real>)
    requires Consistent(s)
    ensures Consistent(PartitionOf(s, data, labels, toNumber))
  {
    if data != [] {
      var n := |data| - 1;
      PartitionConsistent(s, data[..n], labels, toNumber);
      InsertConsistent(PartitionOf(s, data[..n], labels, toNumber), data[n], IsZero(LabelAt(labels, n), toNumber));
    }
  }

  /** All points labelled 0 go to A, in order. */
  lemma {:induction false} PartitionZeros(s: State, data: seq<Vector>, na: nat, toNumber: string -> Option<real>)
    requires na <= |data|
    ensures PartitionOf(s, data[..na], NumLabels(ExportLabels(na, |data| - na)), toNumber) ==
      State(s.a + data[..na], s.b, s.history + Repeat(A, na))
  {
    if na > 0 {
      var labels := NumLabels(ExportLabels(na, |data| - na));
      PartitionZeros(s, data, na - 1, toNumber);
      assert data[..na][..na - 1] == data[..na - 1];
      var prev := PartitionOf(s, data[..na - 1], NumLabels(ExportLabels(na - 1, |data| - (na - 1))), toNumber);
      LabelsAgree(s, data[..na - 1], NumLabels(ExportLabels(na - 1, |data| - (na - 1))), labels, toNumber);
      assert LabelAt(labels, na - 1) == Num(0.0);
      assert data[..na] == data[..na - 1] + [data[na - 1]];
      assert Repeat(A, na) == Repeat(A, na - 1) + [A];
    }
  }

  /** The labels as numbers. */
  function NumLabels(ls: seq<real>): (r: seq<Label>)
    ensures |r| == |ls| && forall i :: 0 <= i < |ls| ==> r[i] == Num(ls[i])
  {
    seq(|ls|, i requires 0 <= i < |ls| => Num(ls[i]))
  }

  /** The loop only asks whether the labels of the points it is given equal 0. */
  lemma {:induction false} LabelsAgree(s: State, data: seq<Vector>, l1: seq<Label>, l2: seq<Label>, toNumber: string -> Option<real>)
    requires forall i :: 0 <= i < |data| ==> IsZero(LabelAt(l1, i), toNumber) == IsZero(LabelAt(l2, i), toNumber)
    ensures PartitionOf(s, data, l1, toNumber) == PartitionOf(s, data, l2, toNumber)
  {
    if data != [] {
      LabelsAgree(s, data[..|data| - 1], l1, l2, toNumber);
    }
  }

  /** Importing what the exporter assembles restores both classes in order; each
      point gets a fresh history entry for its class. */
  lemma ExportPartition(s: State, toNumber: string -> Option<real>)
    ensures PartitionOf(Cleared(s), s.a + s.b, NumLabels(ExportLabels(|s.a|, |s.b|)), toNumber) ==
      State(s.a, s.b, s.history + Repeat(A, |s.a|) + Repeat(B, |s.b|))
  {
    PartitionOnes(s.history, s.a, s.b, toNumber);
  }

  /** The points of A labelled 0, then the points of B labelled 1, go back to A and B. */
  lemma {:induction false} PartitionOnes(h0: seq<Tag>, a: seq<Vector>, b: seq<Vector>, toNumber: string -> Option<real>)
    ensures PartitionOf(State([], [], h0), a + b, NumLabels(ExportLabels(|a|, |b|)), toNumber) ==
      State(a, b, h0 + Repeat(A, |a|) + Repeat(B, |b|))
  {
    if b == [] {
      var start := State([], [], h0);
      assert a + b == a && a[..|a|] == a;
      PartitionZeros(start, a, |a|, toNumber);
      assert h0 + Repeat(A, |a|) + Repeat(B, |b|) == h0 + Repeat(A, |a|);
    } else {
      PartitionOnes(h0, a, b[..|b| - 1], toNumber);
      PartitionOnesStep(h0, a, b, toNumber);
    }
  }

  /** The step of `PartitionOnes`: from all but the last point of B to all of them. */
  lemma PartitionOnesStep(h0: seq<Tag>, a: seq<Vector>, b: seq<Vector>, toNumber: string -> Option<real>)
    requires b != []
    requires PartitionOf(State([], [], h0), a + b[..|b| - 1], NumLabels(ExportLabels(|a|, |b| - 1)), toNumber) ==
      State(a, b[..|b| - 1], h0 + Repeat(A, |a|) + Repeat(B, |b| - 1))
    ensures PartitionOf(State([], [], h0), a + b, NumLabels(ExportLabels(|a|, |b|)), toNumber) ==
      State(a, b, h0 + Repeat(A, |a|) + Repeat(B, |b|))
  {
    var start := State([], [], h0);
    var labels := NumLabels(ExportLabels(|a|, |b|));
    var n := |b| - 1;
    LongerLabels(|a|, n, toNumber);
    LabelsAgree(start, a + b[..n], NumLabels(ExportLabels(|a|, n)), labels, toNumber);
    PartitionOneMore(start, a, b, labels, toNumber);
    assert Repeat(B, |b|) == Repeat(B, n) + [B];
    assert b == b[..n] + [b[n]];
  }

  /** The last point of B, labelled 1, is appended to B. */
  lemma PartitionOneMore(start: State, a: seq<Vector>, b: seq<Vector>, labels: seq<Label>, toNumber: string -> Option<real>)
    requires b != [] && LabelAt(labels, |a| + |b| - 1) == Num(1.0)
    ensures var prev := PartitionOf(start, a + b[..|b| - 1], labels, toNumber);
      PartitionOf(start, a + b, labels, toNumber) == State(prev.a, prev.b + [b[|b| - 1]], prev.history + [B])
  {
    assert (a + b)[..|a + b| - 1] == a + b[..|b| - 1];
  }

  /** One more point of B changes none of the labels before it. */
  lemma LongerLabels(na: nat, n: nat, toNumber: string -> Option<real>)
    ensures forall i :: 0 <= i < na + n ==>
      IsZero(LabelAt(NumLabels(ExportLabels(na, n)), i), toNumber) == IsZero(LabelAt(NumLabels(ExportLabels(na, n + 1)), i), toNumber)
  {
    var shorter, labels := NumLabels(ExportLabels(na, n)), NumLabels(ExportLabels(na, n + 1));
    forall i | 0 <= i < na + n
      ensures IsZero(LabelAt(shorter, i), toNumber) == IsZero(LabelAt(labels, i), toNumber)
    {
      assert LabelAt(shorter, i) == LabelAt(labels, i);
    }
  }

  // ---------------------------------------------------------------------------
  // The editor
  // ---------------------------------------------------------------------------

  class DataGen {
    var classA: seq<Vector>
    var classB: seq<Vector>
    var history: seq<Tag>

    function Current(): State
      reads this
    {
      State(classA, classB, history)
    }

    constructor ()
      ensures Current() == State([], [], [])
    {
      classA, classB, history := [], [], [];
    }

    /** `InsertNewDataPoint(vecPoint, bClassA)`. */
    method InsertNewDataPoint(p: Vector, isA: bool)
      modifies this
      ensures Current() == Insert(old(Current()), p, isA)
    {
      if isA {
        classA := classA + [p];
        history := history + [A];
      } else {
        classB := classB + [p];
        history := history + [B];
      }
    }

    /** `Undo()`. */
    method Undo()
      modifies this
      ensures Current() == UndoOf(old(Current()))
    {
      if history != [] {
        var t := history[|history| - 1];
        history := history[..|history| - 1];
        if t == A {
          if classA != [] {
            classA := classA[..|classA| - 1];
          }
        } else {
          if classB != [] {
            classB := classB[..|classB| - 1];
          }
        }
      }
    }

    /** `Reset()`. */
    method Reset()
      modifies this
      ensures Current() == Cleared(old(Current()))
    {
      classA := [];
      classB := [];
    }

    /** The points and labels both exporters hand on (`ExportDataToJSON` passes them to
        the JSON helper, `ExportDataToCSV` to the CSV exporter). */
    method ExportData() returns (data: seq<Vector>, labels: seq<real>)
      ensures data == classA + classB && labels == ExportLabels(|classA|, |classB|)
    {
      data := classA + classB;
      var zeros := Utils.FillList(|classA|, 0.0);
      var ones := Utils.FillList(|classB|, 1.0);
      labels := zeros + ones;
    }

    /** `ExportDataToCSV()`. */
    method ExportDataToCsv(show: real -> string) returns (text: string)
      ensures text == CsvFile.ExportText(classA + classB, ExportLabels(|classA|, |classB|), show)
    {
      var data, labels := ExportData();
      text := CsvFile.Export(data, labels, show);
    }

    /** The loop both importers run over the scaled points. */
    method Partition(data: seq<Vector>, labels: seq<Label>, toNumber: string -> Option<real>)
      modifies this
      ensures Current() == PartitionOf(old(Current()), data, labels, toNumber)
    {
      ghost var start := Current();
      for i := 0 to |data|
        invariant Current() == PartitionOf(start, data[..i], labels, toNumber)
      {
        assert data[..i + 1][..i] == data[..i];
        if IsZero(LabelAt(labels, i), toNumber) {
          classA := classA + [data[i]];
          history := history + [A];
        } else {
          classB := classB + [data[i]];
          history := history + [B];
        }
      }
      assert data[..|data|] == data;
    }

    /** `ImportDataFromJSON(strImport)`: `parsed` is what the JSON helper returns
        (`None` when it throws) and `scale` stands for `vml_Utils.ScaleData` (`None`
        when it throws). A throw is caught after the classes are cleared. */
    method ImportDataFromJson(parsed: Option<(seq<Vector>, seq<Label>)>, scale: seq<Vector> -> Option<seq<Vector>>,
                              toNumber: string -> Option<real>)
      modifies this
      ensures Current() == ImportJsonOf(old(Current()), parsed, scale, toNumber)
    {
      classA := [];
      classB := [];
      if parsed.Some? {
        var scaled := scale(parsed.value.0);
        if scaled.Some? {
          Partition(scaled.value, parsed.value.1, toNumber);
        }
      }
    }

    /** `ImportDataFromCSV(strImport)`: the CSV importer reads the text, `scale` stands
        for `vml_Utils.ScaleData` (`None` when it throws), and the labels are the
        importer's label texts. */
    method ImportDataFromCsv(text: string, parse: string -> Option<real>,
                             scale: seq<seq<Option<real>>> -> Option<seq<Vector>>, toNumber: string -> Option<real>)
      modifies this
      ensures Current() == ImportCsvOf(old(Current()), text, parse, scale, toNumber)
    {
      classA := [];
      classB := [];
      var points, texts := CsvFile.Import(text, parse);
      var scaled := scale(points);
      if scaled.Some? {
        Partition(scaled.value, CsvLabels(texts), toNumber);
      }
    }
  }

  /** The state `ImportDataFromJSON` leaves. */
  function ImportJsonOf(s: State, parsed: Option<(seq<Vector>, seq<Label>)>, scale: seq<Vector> -> Option<seq<Vector>>,
                        toNumber: string -> Option<real>): State
  {
    if parsed.None? || scale(parsed.value.0).None? then Cleared(s)
    else PartitionOf(Cleared(s), scale(parsed.value.0).value, parsed.value.1, toNumber)
  }

  /** The CSV importer's labels: text, or `undefined` for a line without a comma. */
  function CsvLabels(texts: seq<Option<string>>): (r: seq<Label>)
    ensures |r| == |texts| && forall i :: 0 <= i < |texts| ==> r[i] == if texts[i].Some? then Str(texts[i].value) else Undefined
  {
    seq(|texts|, i requires 0 <= i < |texts| => if texts[i].Some? then Str(texts[i].value) else Undefined)
  }

  /** The state `ImportDataFromCSV` leaves. */
  function ImportCsvOf(s: State, text: string, parse: string -> Option<real>,
                       scale: seq<seq<Option<real>>> -> Option<seq<Vector>>, toNumber: string -> Option<real>): State
  {
    var imported := CsvFile.ImportOf(text, parse);
    if scale(imported.0).None? then Cleared(s)
    else PartitionOf(Cleared(s), scale(imported.0).value, CsvLabels(imported.1), toNumber)
  }

  /** Both importers clear the classes first and only append after that. */
  lemma ImportClears(s: State, parsed: Option<(seq<Vector>, seq<Label>)>, scale: seq<Vector> -> Option<seq<Vector>>,
                     toNumber: string -> Option<real>)
    ensures var r := ImportJsonOf(s, parsed, scale, toNumber);
      |r.history| >= |s.history| && r.history[..|s.history|] == s.history &&
      |r.a| + |r.b| == (if parsed.None? || scale(parsed.value.0).None? then 0 else |scale(parsed.value.0).value|)
  {
    if parsed.Some? && scale(parsed.value.0).Some? {
      PartitionShape(Cleared(s), scale(parsed.value.0).value, parsed.value.1, toNumber);
    }
  }

  /** Importing what `ExportDataToJSON` handed on, read back unchanged and left
      unchanged by scaling, restores both classes; the history grows by one entry
      per point. */
  lemma ExportImportJson(s: State, scale: seq<Vector> -> Option<seq<Vector>>, toNumber: string -> Option<real>)
    requires scale(s.a + s.b) == Some(s.a + s.b)
    ensures ImportJsonOf(s, Some((s.a + s.b, NumLabels(ExportLabels(|s.a|, |s.b|)))), scale, toNumber) ==
      State(s.a, s.b, s.history + Repeat(A, |s.a|) + Repeat(B, |s.b|))
  {
    ExportPartition(s, toNumber);
  }

  /** Importing the text `ExportDataToCSV` wrote restores both classes, for points of
      one or two coordinates, when the numbers read back (`SoundText`), scaling leaves
      the points read unchanged, and the label texts read back as 0 and 1. */
  lemma ExportImportCsv(s: State, show: real -> string, parse: string -> Option<real>,
                        scale: seq<seq<Option<real>>> -> Option<seq<Vector>>, toNumber: string -> Option<real>)
    requires Text.SoundText(show, parse)
    requires forall i :: 0 <= i < |s.a + s.b| ==> 1 <= |(s.a + s.b)[i]| <= 2
    requires scale(Text.LiftAll(s.a + s.b)) == Some(s.a + s.b)
    requires toNumber(show(0.0) + "\r") == Some(0.0) && toNumber(show(1.0) + "\r") != Some(0.0)
    ensures ImportCsvOf(s, CsvFile.ExportText(s.a + s.b, ExportLabels(|s.a|, |s.b|), show), parse, scale, toNumber) ==
      State(s.a, s.b, s.history + Repeat(A, |s.a|) + Repeat(B, |s.b|))
  {
    var data, ls := s.a + s.b, ExportLabels(|s.a|, |s.b|);
    CsvFile.ExportImport(data, ls, show, parse);
    var read := CsvLabels(CsvFile.LabelsRead(ls, show));
    forall i | 0 <= i < |data|
      ensures IsZero(LabelAt(read, i), toNumber) == IsZero(LabelAt(NumLabels(ls), i), toNumber)
    {
      assert LabelAt(read, i) == Str(show(ls[i]) + "\r");
    }
    LabelsAgree(Cleared(s), data, read, NumLabels(ls), toNumber);
    ExportPartition(s, toNumber);
  }
}
