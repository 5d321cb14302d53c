/** The two-class data generator of the `vmljs` library (`vml_DataGen`).

  Points go to class A or class B; the CSV exporter writes a header and one line per
  point, `x,y,t` with `t` the class (0 or 1) and each line ended by "\r\n"; the CSV
  importer reads such lines back, keeping the coordinates as text.
 */
module DataGen {
  import opened Text

  /** An entry of a point: a number (a clicked position), text (an imported
      coordinate) or `undefined` (an imported line with fewer fields). */
  datatype Cell = Number(x: real) | Str(s: string) | Undefined

  type Point = seq<Cell>

  /** `p[k]` as JavaScript turns it into text when it is added to a string (`show`
      writes numbers); `undefined` past the end of the point. */
  function CellText(p: Point, k: nat, show: real -> string): string
  {
    if k < |p| then
      match p[k]
      case Number(x) => show(x)
      case Str(s) => s
      case Undefined => "undefined"
    else "undefined"
  }

  /** The header line, without its line feed. */
  const Header := "x, y, t\r"

  /** The three fields written for a point of class `t`, joined by commas. */
  function Fields(p: Point, t: char, show: real -> string): string
  {
    CellText(p, 0, show) + "," + CellText(p, 1, show) + "," + [t]
  }

  /** The line written for a point of class `t`, without its line feed. */
  function RowLine(p: Point, t: char, show: real -> string): string
  {
    Fields(p, t, show) + "\r"
  }

  function RowLines(ps: seq<Point>, t: char, show: real -> string): (r: seq<string>)
    ensures |r| == |ps| && forall i :: 0 <= i < |ps| ==> r[i] == RowLine(ps[i], t, show)
  {
    seq(|ps|, i requires 0 <= i < |ps| => RowLine(ps[i], t, show))
  }

  /** What `ExportDataToCSV()` returns: the header, then the points of A with class 0
      and the points of B with class 1, each line ended by "\r\n". */
  function ExportText(a: seq<Point>, b: seq<Point>, show: real -> string): string
  {
    Terminated([Header] + RowLines(a, '0', show) + RowLines(b, '1', show), '\n')
  }

  /** What the importer does with one line. */
  datatype Row = ToA(p: Point) | ToB(p: Point) | Skip

  /** A line whose third comma field is exactly "0" gives a point of A, exactly "1"
      one of B, both made of the first two fields as text; any other line, and an
      empty one, is dropped. */
  function ReadRow(line: string): Row
  {
    if line == "" then Skip
    else
      var f := Split(line, ',');
      if |f| >= 3 && f[2] == "0" then ToA([Str(f[0]), Str(f[1])])
      else if |f| >= 3 && f[2] == "1" then ToB([Str(f[0]), Str(f[1])])
      else Skip
  }

  function ReadRows(rows: seq<string>): (r: seq<Row>)
    ensures |r| == |rows| && forall i :: 0 <= i < |rows| ==> r[i] == ReadRow(rows[i])
  {
    seq(|rows|, i requires 0 <= i < |rows| => ReadRow(rows[i]))
  }

  /** The points of the lines read, in order, sorted into A and B; every line adds at
      most one point. */
  function Collect(rs: seq<Row>): (r: (seq<Point>, seq<Point>))
    ensures |r.0| + |r.1| <= |rs|
  {
    if rs == [] then ([], [])
    else
      var prev := Collect(rs[..|rs| - 1]);
      match rs[|rs| - 1]
      case ToA(p) => (prev.0 + [p], prev.1)
      case ToB(p) => (prev.0, prev.1 + [p])
      case Skip => prev
  }

  /** The classes `ImportDataFromCSV(strImport)` leaves: the lines after the first, read. */
  function ImportOf(text: string): (seq<Point>, seq<Point>)
  {
    Collect(ReadRows(Split(text, '\n')[1..]))
  }

  /** Both coordinates kept as text: what the importer stores. */
  predicate Stored(p: Point)
  {
    |p| == 2 && p[0].Str? && p[1].Str?
  }

  /** Every point read holds two texts. */
  lemma {:induction false} CollectStored(rs: seq<Row>)
    requires forall k :: 0 <= k < |rs| ==> (rs[k].ToA? || rs[k].ToB?) ==> Stored(rs[k].p)
    ensures forall i :: 0 <= i < |Collect(rs).0| ==> Stored(Collect(rs).0[i])
    ensures forall i :: 0 <= i < |Collect(rs).1| ==> Stored(Collect(rs).1[i])
  {
    if rs != [] {
      CollectStored(rs[..|rs| - 1]);
    }
  }

  /** The importer stores every point as the texts of its two coordinates. */
  lemma ImportStored(text: string)
    ensures forall i :: 0 <= i < |ImportOf(text).0| ==> Stored(ImportOf(text).0[i])
    ensures forall i :: 0 <= i < |ImportOf(text).1| ==> Stored(ImportOf(text).1[i])
  {
    CollectStored(ReadRows(Split(text, '\n')[1..]));
  }

  /** Lines that are all dropped leave both classes empty. */
  lemma {:induction false} CollectSkipped(rs: seq<Row>)
    requires forall k :: 0 <= k < |rs| ==> rs[k] == Skip
    ensures Collect(rs) == ([], [])
  {
    if rs != [] {
      CollectSkipped(rs[..|rs| - 1]);
    }
  }

  /** Lines read as points of A, then lines read as points of B, give those points
      in order. */
  lemma {:induction false} CollectSorted(rs: seq<Row>, pa: seq<Point>, pb: seq<Point>)
    requires |rs| == |pa| + |pb|
    requires forall k :: 0 <= k < |pa| ==> rs[k] == ToA(pa[k])
    requires forall k :: 0 <= k < |pb| ==> rs[|pa| + k] == ToB(pb[k])
    ensures Collect(rs) == (pa, pb)
  {
    if rs != [] {
      var front := rs[..|rs| - 1];
      if pb != [] {
        var n := |pb| - 1;
        forall k | 0 <= k < n
          ensures front[|pa| + k] == ToB(pb[..n][k])
        {
          assert front[|pa| + k] == rs[|pa| + k] && pb[..n][k] == pb[k];
        }
        CollectSorted(front, pa, pb[..n]);
        assert rs[|rs| - 1] == rs[|pa| + n];
        assert pb == pb[..n] + [pb[n]];
      } else {
        var n := |pa| - 1;
        CollectSorted(front, pa[..n], []);
        assert rs[|rs| - 1] == rs[n];
        assert pa == pa[..n] + [pa[n]];
      }
    }
  }

  /** The points' texts hold no comma and no line feed. */
  predicate Plain(ps: seq<Point>, show: real -> string)
  {
    forall i :: 0 <= i < |ps| ==>
      ',' !in CellText(ps[i], 0, show) && '\n' !in CellText(ps[i], 0, show) &&
      ',' !in CellText(ps[i], 1, show) && '\n' !in CellText(ps[i], 1, show)
  }

  /** Clicked points, two numbers each, are plain when numbers are written without
      commas or line feeds. */
  lemma NumbersPlain(ps: seq<Point>, show: real -> string)
    requires forall x: real {:trigger show(x)} :: ',' !in show(x) && '\n' !in show(x)
    requires forall i :: 0 <= i < |ps| ==> |ps[i]| == 2 && ps[i][0].Number? && ps[i][1].Number?
    ensures Plain(ps, show)
  {
    forall i | 0 <= i < |ps|
      ensures ',' !in CellText(ps[i], 0, show) && '\n' !in CellText(ps[i], 0, show) &&
        ',' !in CellText(ps[i], 1, show) && '\n' !in CellText(ps[i], 1, show)
    {
      var x, y := ps[i][0].x, ps[i][1].x;
      assert ',' !in show(x) && '\n' !in show(x);
      assert ',' !in show(y) && '\n' !in show(y);
    }
  }

  /** An exported line splits at its two commas; its third field keeps the carriage return. */
  lemma RowFields(p: Point, t: char, show: real -> string)
    requires ',' !in CellText(p, 0, show) && ',' !in CellText(p, 1, show)
    requires t == '0' || t == '1'
    ensures Split(RowLine(p, t, show), ',') == [CellText(p, 0, show), CellText(p, 1, show), [t, '\r']]
  {
    var x, y := CellText(p, 0, show), CellText(p, 1, show);
    JoinTriple(x, y, [t, '\r'], ',');
    assert RowLine(p, t, show) == x + [','] + (y + [','] + [t, '\r']);
    SplitJoin([x, y, [t, '\r']], ',');
  }

  /** An exported line holds no line feed. */
  lemma RowNoBreak(p: Point, t: char, show: real -> string)
    requires '\n' !in CellText(p, 0, show) && '\n' !in CellText(p, 1, show) && t != '\n'
    ensures '\n' !in RowLine(p, t, show)
  {
  }

  /** The exported lines of a class hold no line feed. */
  lemma RowsNoBreak(ps: seq<Point>, t: char, show: real -> string)
    requires Plain(ps, show) && t != '\n'
    ensures NoBreak(RowLines(ps, t, show))
  {
    forall i | 0 <= i < |ps|
      ensures '\n' !in RowLines(ps, t, show)[i]
    {
      RowNoBreak(ps[i], t, show);
    }
  }

  /** The exported text split at its line feeds: the header, the rows and an empty last piece. */
  lemma ExportLines(a: seq<Point>, b: seq<Point>, show: real -> string)
    requires Plain(a, show) && Plain(b, show)
    ensures Split(ExportText(a, b, show), '\n')[1..] == RowLines(a, '0', show) + RowLines(b, '1', show) + [""]
  {
    var ra, rb := RowLines(a, '0', show), RowLines(b, '1', show);
    RowsNoBreak(a, '0', show);
    RowsNoBreak(b, '1', show);
    HeaderNoBreak();
    LinesAfterFirst(Header, ra, rb);
    SplitTerminated([Header] + ra + rb, '\n');
  }

  lemma HeaderNoBreak()
    ensures NoBreak([Header])
  {
  }

  /** The lines after the header of a header-and-rows text that ends in a line break. */
  lemma LinesAfterFirst(h: string, ra: seq<string>, rb: seq<string>)
    requires NoBreak([h]) && NoBreak(ra) && NoBreak(rb)
    ensures NoBreak([h] + ra + rb)
    ensures ([h] + ra + rb + [""])[1..] == ra + rb + [""]
  {
    NoBreakConcat([h], ra);
    NoBreakConcat([h] + ra, rb);
    assert [h] + ra + rb + [""] == [h] + (ra + rb + [""]);
  }

  /** `ImportDataFromCSV(ExportDataToCSV())` as written loses every point: the third
      field of an exported line is "0\r" or "1\r", never "0" or "1". */
  lemma ExportImportLosesPoints(a: seq<Point>, b: seq<Point>, show: real -> string)
    requires Plain(a, show) && Plain(b, show)
    ensures ImportOf(ExportText(a, b, show)) == ([], [])
  {
    var rows := RowLines(a, '0', show) + RowLines(b, '1', show) + [""];
    ExportLines(a, b, show);
    var rs := ReadRows(rows);
    forall i | 0 <= i < |rows|
      ensures rs[i] == Skip
    {
      if i < |a| {
        assert rows[i] == RowLine(a[i], '0', show);
        RowFields(a[i], '0', show);
        assert ['0', '\r'] != "0" && ['0', '\r'] != "1";
      } else if i < |a| + |b| {
        assert rows[i] == RowLine(b[i - |a|], '1', show);
        RowFields(b[i - |a|], '1', show);
        assert ['1', '\r'] != "0" && ['1', '\r'] != "1";
      }
    }
    CollectSkipped(rs);
  }

  /** A line with its trailing carriage return removed. */
  function StripCr(line: string): string
  {
    if |line| > 0 && line[|line| - 1] == '\r' then line[..|line| - 1] else line
  }

  function StripAll(rows: seq<string>): (r: seq<string>)
    ensures |r| == |rows| && forall i :: 0 <= i < |rows| ==> r[i] == StripCr(rows[i])
  {
    seq(|rows|, i requires 0 <= i < |rows| => StripCr(rows[i]))
  }

  /** The importer the exporter's format calls for: lines end in "\r\n", so each
      line's carriage return is dropped before its fields are read. */
  function ImportFixedOf(text: string): (seq<Point>, seq<Point>)
  {
    ImportFixedLines(Split(text, '\n')[1..])
  }

  function ImportFixedLines(lines: seq<string>): (seq<Point>, seq<Point>)
  {
    Collect(ReadRows(StripAll(lines)))
  }

  /** A point as the importer stores it: its two texts. */
  function AsRead(p: Point, show: real -> string): (r: Point)
    ensures Stored(r)
    ensures Stored(p) ==> r == p
  {
    [Str(CellText(p, 0, show)), Str(CellText(p, 1, show))]
  }

  function AllAsRead(ps: seq<Point>, show: real -> string): (r: seq<Point>)
    ensures |r| == |ps| && forall i :: 0 <= i < |ps| ==> r[i] == AsRead(ps[i], show)
  {
    seq(|ps|, i requires 0 <= i < |ps| => AsRead(ps[i], show))
  }

  /** The exported lines, their carriage returns dropped, are read as the points' texts. */
  lemma ReadClassRows(a: seq<Point>, b: seq<Point>, show: real -> string, lines: seq<string>)
    requires Plain(a, show) && Plain(b, show)
    requires lines == RowLines(a, '0', show) + RowLines(b, '1', show) + [""]
    ensures |ReadRows(StripAll(lines))| == |a| + |b| + 1
    ensures forall k :: 0 <= k < |a| ==> ReadRows(StripAll(lines))[k] == ToA(AsRead(a[k], show))
    ensures forall k :: 0 <= k < |b| ==> ReadRows(StripAll(lines))[|a| + k] == ToB(AsRead(b[k], show))
    ensures ReadRows(StripAll(lines))[|a| + |b|] == Skip
  {
    var rs := ReadRows(StripAll(lines));
    forall k | 0 <= k < |a|
      ensures rs[k] == ToA(AsRead(a[k], show))
    {
      assert rs[k] == ReadRow(StripCr(lines[k]));
      assert lines[k] == RowLine(a[k], '0', show);
      StrippedRow(a[k], '0', show);
    }
    forall k | 0 <= k < |b|
      ensures rs[|a| + k] == ToB(AsRead(b[k], show))
    {
      assert rs[|a| + k] == ReadRow(StripCr(lines[|a| + k]));
      assert lines[|a| + k] == RowLine(b[k], '1', show);
      StrippedRow(b[k], '1', show);
    }
    assert rs[|a| + |b|] == ReadRow(StripCr(lines[|a| + |b|]));
    assert lines[|a| + |b|] == "";
  }

  /** An exported line, its carriage return dropped, is read as the point's texts. */
  lemma StrippedRow(p: Point, t: char, show: real -> string)
    requires ',' !in CellText(p, 0, show) && ',' !in CellText(p, 1, show)
    requires t == '0' || t == '1'
    ensures ReadRow(StripCr(RowLine(p, t, show))) == if t == '0' then ToA(AsRead(p, show)) else ToB(AsRead(p, show))
  {
    var x, y := CellText(p, 0, show), CellText(p, 1, show);
    var f := Fields(p, t, show);
    assert StripCr(f + "\r") == f by {
      assert (f + "\r")[..|f|] == f;
    }
    JoinTriple(x, y, [t], ',');
    assert f == x + [','] + (y + [','] + [t]);
    SplitJoin([x, y, [t]], ',');
  }

  /** With the carriage return dropped, `ImportDataFromCSV(ExportDataToCSV())` gives
      back both classes, each point as the texts of its two coordinates. */
  lemma ExportImportFixed(a: seq<Point>, b: seq<Point>, show: real -> string)
    requires Plain(a, show) && Plain(b, show)
    ensures ImportFixedOf(ExportText(a, b, show)) == (AllAsRead(a, show), AllAsRead(b, show))
  {
    ExportLines(a, b, show);
    FixedLines(a, b, show);
  }

  /** The exported lines, read by the corrected importer. */
  lemma FixedLines(a: seq<Point>, b: seq<Point>, show: real -> string)
    requires Plain(a, show) && Plain(b, show)
    ensures ImportFixedLines(RowLines(a, '0', show) + RowLines(b, '1', show) + [""]) == (AllAsRead(a, show), AllAsRead(b, show))
  {
    var lines := RowLines(a, '0', show) + RowLines(b, '1', show) + [""];
    ReadClassRows(a, b, show, lines);
    var rs := ReadRows(StripAll(lines));
    var n := |a| + |b|;
    assert rs == rs[..n] + [Skip];
    var pa, pb := AllAsRead(a, show), AllAsRead(b, show);
    forall k | 0 <= k < |pa|
      ensures rs[..n][k] == ToA(pa[k])
    {
      assert rs[..n][k] == rs[k];
    }
    forall k | 0 <= k < |pb|
      ensures rs[..n][|pa| + k] == ToB(pb[k])
    {
      assert rs[..n][|pa| + k] == rs[|a| + k];
    }
    CollectSorted(rs[..n], pa, pb);
  }

  /** A set that was itself imported survives the corrected round trip unchanged. */
  lemma ExportImportFixedStored(a: seq<Point>, b: seq<Point>, show: real -> string)
    requires Plain(a, show) && Plain(b, show)
    requires forall i :: 0 <= i < |a| ==> Stored(a[i])
    requires forall i :: 0 <= i < |b| ==> Stored(b[i])
    ensures ImportFixedOf(ExportText(a, b, show)) == (a, b)
  {
    ExportImportFixed(a, b, show);
    AllAsReadStored(a, show);
    AllAsReadStored(b, show);
  }

  lemma AllAsReadStored(ps: seq<Point>, show: real -> string)
    requires forall i :: 0 <= i < |ps| ==> Stored(ps[i])
    ensures AllAsRead(ps, show) == ps
  {
    forall i | 0 <= i < |ps|
      ensures AllAsRead(ps, show)[i] == ps[i]
    {
      assert Stored(ps[i]);
    }
  }

  class Generator {
    var classA: seq<Point>
    var classB: seq<Point>

    constructor ()
      ensures classA == [] && classB == []
    {
      classA, classB := [], [];
    }

    /** `InsertNewDataPoint(vecPoint, bClassA)`. */
    method InsertNewDataPoint(p: Point, isA: bool)
      modifies this
      ensures isA ==> classA == old(classA) + [p] && classB == old(classB)
      ensures !isA ==> classA == old(classA) && classB == old(classB) + [p]
    {
      if isA {
        classA := classA + [p];
      } else {
        classB := classB + [p];
      }
    }

    /** `ExportDataToCSV()`. */
    method ExportDataToCsv(show: real -> string) returns (text: string)
      ensures text == ExportText(classA, classB, show)
    {
      var header := Header + "\n";
      var body := WriteRows([], "", classA, '0', show);
      assert [] + RowLines(classA, '0', show) == RowLines(classA, '0', show);
      body := WriteRows(RowLines(classA, '0', show), body, classB, '1', show);
      text := header + body;
      ExportAssembled(classA, classB, show);
    }

    /** `ImportDataFromCSV(strImport)`, as written: each line keeps its carriage return. */
    method ImportDataFromCsv(text: string)
      modifies this
      ensures (classA, classB) == ImportOf(text)
    {
      classA := [];
      classB := [];
      var rows := Split(text, '\n');
      var i := 1;
      while i < |rows|
        invariant 1 <= i <= |rows|
        invariant (classA, classB) == Collect(ReadRows(rows[1..i]))
      {
        var row := ReadLine(rows[i]);
        CollectNext(rows, i, row);
        match row {
          case ToA(p) => classA := classA + [p];
          case ToB(p) => classB := classB + [p];
          case Skip =>
        }
        i := i + 1;
      }
      assert rows[1..i] == rows[1..];
    }

    /** `Reset()`. */
    method Reset()
      modifies this
      ensures classA == [] && classB == []
    {
      classA := [];
      classB := [];
    }
  }

  /** Reading one more line of the input adds its row to the classes read so far. */
  lemma CollectNext(rows: seq<string>, i: nat, row: Row)
    requires 1 <= i < |rows| && row == ReadRow(rows[i])
    ensures var prev := Collect(ReadRows(rows[1..i]));
      Collect(ReadRows(rows[1..i + 1])) ==
        match row
        case ToA(p) => (prev.0 + [p], prev.1)
        case ToB(p) => (prev.0, prev.1 + [p])
        case Skip => prev
  {
    ReadRowsSnoc(rows[1..i], rows[i]);
    assert rows[1..i + 1] == rows[1..i] + [rows[i]];
    CollectSnoc(ReadRows(rows[1..i]), row);
  }

  lemma ReadRowsSnoc(rows: seq<string>, line: string)
    ensures ReadRows(rows + [line]) == ReadRows(rows) + [ReadRow(line)]
  {
    var l, r := ReadRows(rows + [line]), ReadRows(rows) + [ReadRow(line)];
    forall k | 0 <= k < |l|
      ensures l[k] == r[k]
    {
      if k < |rows| {
        assert (rows + [line])[k] == rows[k];
      }
    }
  }

  lemma CollectSnoc(rs: seq<Row>, row: Row)
    ensures var prev := Collect(rs);
      Collect(rs + [row]) ==
        match row
        case ToA(p) => (prev.0 + [p], prev.1)
        case ToB(p) => (prev.0, prev.1 + [p])
        case Skip => prev
  {
    assert (rs + [row])[..|rs|] == rs;
  }

  /** The body of the import loop: an empty line is skipped, any other is split at
      its commas and its third field decides the class. */
  method ReadLine(line: string) returns (row: Row)
    ensures row == ReadRow(line)
  {
    if line == "" {
      return Skip;
    }
    var fields := Split(line, ',');
    if |fields| >= 3 && fields[2] == "0" {
      row := ToA([Str(fields[0]), Str(fields[1])]);
    } else if |fields| >= 3 && fields[2] == "1" {
      row := ToB([Str(fields[0]), Str(fields[1])]);
    } else {
      row := Skip;
    }
  }

  /** The header and its line feed, then the rows: the exported text. */
  lemma ExportAssembled(a: seq<Point>, b: seq<Point>, show: real -> string)
    ensures Header + "\n" + Terminated([] + RowLines(a, '0', show) + RowLines(b, '1', show), '\n') == ExportText(a, b, show)
  {
    var ra, rb := RowLines(a, '0', show), RowLines(b, '1', show);
    assert [] + ra + rb == ra + rb;
    assert [Header] + ra + rb == [Header] + (ra + rb);
    TerminatedCons(Header, ra + rb, '\n');
  }

  /** One loop of `ExportDataToCSV`: a line `x,y,t` for each point, appended to `body`. */
  method WriteRows(lines: seq<string>, body: string, ps: seq<Point>, t: char, show: real -> string) returns (r: string)
    requires body == Terminated(lines, '\n')
    ensures r == Terminated(lines + RowLines(ps, t, show), '\n')
  {
    r := body;
    assert lines + RowLines(ps[..0], t, show) == lines;
    for i := 0 to |ps|
      invariant r == Terminated(lines + RowLines(ps[..i], t, show), '\n')
    {
      r := r + (CellText(ps[i], 0, show) + "," + CellText(ps[i], 1, show) + "," + [t] + "\r\n");
      LineText(ps[i], t, show);
      RowLinesSnoc(lines, ps, i, t, show);
    }
    assert ps[..|ps|] == ps;
  }

  /** The text appended for one point is its line and a line feed. */
  lemma LineText(p: Point, t: char, show: real -> string)
    ensures CellText(p, 0, show) + "," + CellText(p, 1, show) + "," + [t] + "\r\n" == RowLine(p, t, show) + "\n"
  {
  }

  /** One more exported line. */
  lemma RowLinesSnoc(lines: seq<string>, ps: seq<Point>, i: nat, t: char, show: real -> string)
    requires i < |ps|
    ensures Terminated(lines + RowLines(ps[..i + 1], t, show), '\n') ==
      Terminated(lines + RowLines(ps[..i], t, show), '\n') + (RowLine(ps[i], t, show) + "\n")
  {
    var x, y := RowLines(ps[..i], t, show), RowLine(ps[i], t, show);
    RowLinesStep(ps, i, t, show);
    assert lines + (x + [y]) == (lines + x) + [y];
    TerminatedSnoc(lines + x, y, '\n');
  }

  lemma RowLinesStep(ps: seq<Point>, i: nat, t: char, show: real -> string)
    requires i < |ps|
    ensures RowLines(ps[..i + 1], t, show) == RowLines(ps[..i], t, show) + [RowLine(ps[i], t, show)]
  {
    var l, r := RowLines(ps[..i + 1], t, show), RowLines(ps[..i], t, show) + [RowLine(ps[i], t, show)];
    forall k | 0 <= k < |l|
      ensures l[k] == r[k]
    {
      if k < i {
        assert ps[..i + 1][k] == ps[..i][k];
      }
    }
  }
}
