/** `vml_CsvHelper`: a labelled data set as comma-separated text.

  `Export` writes the header `x,t`, then per point its coordinates, the point's
  label and a carriage return before each line break. The coordinates are written
  as the array's text with only its first comma replaced by a space. `Import`
  skips the first line and empty lines, splits each other line on commas, reads
  the space-separated numbers of the first field and keeps the second field as
  the label text.
 */
module CsvFile {
  import opened Wrappers
  import opened Text

  const Header: string := "x,t\r"

  /** `toString` of an array of numbers: the numbers joined by commas. */
  function ArrayText(row: seq<real>, show: real -> string): string
  {
    if row == [] then "" else Join(Texts(row, show), ',')
  }

  /** The text of each number. */
  function Texts(row: seq<real>, show: real -> string): (r: seq<string>)
    ensures |r| == |row| && forall i :: 0 <= i < |row| ==> r[i] == show(row[i])
  {
    seq(|row|, i requires 0 <= i < |row| => show(row[i]))
  }

  /** The text of label `i`, or "undefined" past the end of the labels. */
  function LabelText(labels: seq<real>, i: nat, show: real -> string): string
  {
    if i < |labels| then show(labels[i]) else "undefined"
  }

  /** One exported line, without its line break. */
  function RowText(row: seq<real>, lab: string, show: real -> string): string
  {
    ReplaceFirst(ArrayText(row, show), ',', ' ') + "," + lab + "\r"
  }

  function RowLines(data: seq<seq<real>>, labels: seq<real>, show: real -> string): (r: seq<string>)
    ensures |r| == |data|
  {
    seq(|data|, i requires 0 <= i < |data| => RowText(data[i], LabelText(labels, i, show), show))
  }

  /** What `Export(lData, lLabels)` returns. */
  function ExportText(data: seq<seq<real>>, labels: seq<real>, show: real -> string): string
  {
    Terminated([Header] + RowLines(data, labels, show), '\n')
  }

  /** `Export(lData, lLabels)`. */
  method Export(data: seq<seq<real>>, labels: seq<real>, show: real -> string) returns (r: string)
    ensures r == ExportText(data, labels, show)
  {
    r := Header + "\n";
    assert r == Terminated([Header] + RowLines(data[..0], labels, show), '\n') by {
      assert [Header] + RowLines(data[..0], labels, show) == [] + [Header];
      TerminatedSnoc([], Header, '\n');
    }
    for i := 0 to |data|
      invariant r == Terminated([Header] + RowLines(data[..i], labels, show), '\n')
    {
      var line := ReplaceFirst(ArrayText(data[i], show), ',', ' ') + "," + LabelText(labels, i, show) + "\r";
      RowLinesSnoc(data, labels, i, show);
      TerminatedSnoc([Header] + RowLines(data[..i], labels, show), line, '\n');
      r := r + line + "\n";
    }
    assert data[..|data|] == data;
  }

  lemma RowLinesSnoc(data: seq<seq<real>>, labels: seq<real>, i: nat, show: real -> string)
    requires i < |data|
    ensures [Header] + RowLines(data[..i + 1], labels, show) ==
      ([Header] + RowLines(data[..i], labels, show)) + [RowText(data[i], LabelText(labels, i, show), show)]
  {
    assert RowLines(data[..i + 1], labels, show) == RowLines(data[..i], labels, show) + [RowText(data[i], LabelText(labels, i, show), show)];
  }

  // ---------------------------------------------------------------------------
  // Import
  // ---------------------------------------------------------------------------

  /** The point and the label of one line: the numbers of the first comma field, split
      on spaces, and the second comma field, `None` (`undefined`) when there is none. */
  function RowOf(line: string, parse: string -> Option<real>): (seq<Option<real>>, Option<string>)
  {
    var tmp := Split(line, ',');
    (ParseAll(Split(tmp[0], ' '), parse), if |tmp| >= 2 then Some(tmp[1]) else None)
  }

  /** The points and labels of the given lines, empty lines skipped. The two lists have
      one entry per non-empty line each. */
  function ImportRows(rows: seq<string>, parse: string -> Option<real>): (r: (seq<seq<Option<real>>>, seq<Option<string>>))
    ensures |r.0| == |r.1| <= |rows|
  {
    if rows == [] then ([], [])
    else
      var prev := ImportRows(rows[..|rows| - 1], parse);
      var line := rows[|rows| - 1];
      if line == "" then prev
      else
        var row := RowOf(line, parse);
        (prev.0 + [row.0], prev.1 + [row.1])
  }

  /** What `Import(strData)` returns: every line after the first. */
  function ImportOf(text: string, parse: string -> Option<real>): (seq<seq<Option<real>>>, seq<Option<string>>)
  {
    ImportRows(Split(text, '\n')[1..], parse)
  }

  /** The inner loop of `Import`: each token replaced by the number it reads as. */
  method ParseTokens(tokens: seq<string>, parse: string -> Option<real>) returns (point: seq<Option<real>>)
    ensures point == ParseAll(tokens, parse)
  {
    var a := new Option<real>[|tokens|](_ => None);
    for j := 0 to |tokens|
      invariant forall k :: 0 <= k < j ==> a[k] == parse(tokens[k])
    {
      a[j] := parse(tokens[j]);
    }
    point := a[..];
  }

  /** `Import(strData)`. */
  method Import(text: string, parse: string -> Option<real>) returns (data: seq<seq<Option<real>>>, labels: seq<Option<string>>)
    ensures (data, labels) == ImportOf(text, parse)
  {
    var rows := Split(text, '\n');
    data, labels := [], [];
    var i := 1;
    while i < |rows|
      invariant 1 <= i <= |rows|
      invariant (data, labels) == ImportRows(rows[1..i], parse)
    {
      assert rows[1..i + 1][..i - 1] == rows[1..i];
      if rows[i] != "" {
        var tmp := Split(rows[i], ',');
        var point := ParseTokens(Split(tmp[0], ' '), parse);
        data := data + [point];
        labels := labels + [if |tmp| >= 2 then Some(tmp[1]) else None];
      }
      i := i + 1;
    }
    assert rows[1..i] == rows[1..];
  }

  // ---------------------------------------------------------------------------
  // Round trip
  // ---------------------------------------------------------------------------

  /** The line of a point with one or two coordinates, spelled out. */
  lemma RowShape(row: seq<real>, lab: string, show: real -> string)
    requires 1 <= |row| <= 2 && forall x: real {:trigger show(x)} :: ',' !in show(x)
    ensures |row| == 1 ==> RowText(row, lab, show) == Join([show(row[0]), lab + "\r"], ',')
    ensures |row| == 2 ==> RowText(row, lab, show) == Join([show(row[0]) + " " + show(row[1]), lab + "\r"], ',')
  {
    var x0 := row[0];
    var a, t := show(x0), lab + "\r";
    assert ',' !in a;
    var cells := Texts(row, show);
    if |row| == 1 {
      assert cells == [a];
      ReplaceFirstAbsent(a, ',', ' ');
      JoinPair(a, t, ',');
    } else {
      var x1 := row[1];
      var b := show(x1);
      assert cells == [a, b];
      JoinPair(a, b, ',');
      ReplaceFirstAt(a, ',', ' ', b);
      JoinPair(a + " " + b, t, ',');
      assert a + [' '] + b + "," + lab + "\r" == a + " " + b + [','] + t;
    }
  }

  /** A point with one or two coordinates is read back, and its label as its text
      followed by the carriage return the exporter writes before the line break. */
  lemma RowRoundTrip(row: seq<real>, l: real, show: real -> string, parse: string -> Option<real>)
    requires SoundText(show, parse) && 1 <= |row| <= 2
    ensures RowOf(RowText(row, show(l), show), parse) == (Lift(row), Some(show(l) + "\r"))
  {
    var a, t := show(row[0]), show(l) + "\r";
    var x0, xl := row[0], l;
    assert ',' !in show(x0) && ' ' !in show(x0) && parse(show(x0)) == Some(x0);
    assert ',' !in show(xl);
    RowShape(row, show(l), show);
    if |row| == 1 {
      SplitJoin([a, t], ',');
      assert Split(a, ' ') == [a] by {
        FindChar(a, ' ');
      }
      assert ParseAll([a], parse) == Lift(row);
    } else {
      var x1 := row[1];
      var b := show(x1);
      assert ',' !in b && ' ' !in b && parse(b) == Some(x1);
      SplitJoin([a + " " + b, t], ',');
      SplitJoin([a, b], ' ');
      JoinPair(a, b, ' ');
      assert ParseAll([a, b], parse) == Lift(row);
    }
  }

  /** With three coordinates the first two are read back and the third is taken for
      the label: the exporter replaces only the first comma of the array's text. */
  lemma ThirdCoordinateAsLabel(row: seq<real>, l: real, show: real -> string, parse: string -> Option<real>)
    requires SoundText(show, parse) && |row| == 3
    ensures RowOf(RowText(row, show(l), show), parse) == (Lift(row[..2]), Some(show(row[2])))
  {
    var x0, x1, x2, xl := row[0], row[1], row[2], l;
    var a, b, c, t := show(x0), show(x1), show(x2), show(xl) + "\r";
    assert ',' !in a && ' ' !in a && parse(a) == Some(x0);
    assert ',' !in b && ' ' !in b && parse(b) == Some(x1);
    assert ',' !in c && ',' !in show(xl);
    var cells := Texts(row, show);
    assert cells == [a, b, c];
    JoinTriple(a, b, c, ',');
    ReplaceFirstAt(a, ',', ' ', b + [','] + c);
    JoinTriple(a + " " + b, c, t, ',');
    assert a + [' '] + (b + [','] + c) + "," + show(l) + "\r" == a + " " + b + [','] + (c + [','] + t);
    SplitJoin([a + " " + b, c, t], ',');
    SplitJoin([a, b], ' ');
    JoinPair(a, b, ' ');
    assert ParseAll([a, b], parse) == Lift(row[..2]);
  }

  /** The labels as `Import` reads them back from exported text: each label's text
      followed by a carriage return. */
  function LabelsRead(labels: seq<real>, show: real -> string): (r: seq<Option<string>>)
    ensures |r| == |labels| && forall i :: 0 <= i < |labels| ==> r[i] == Some(show(labels[i]) + "\r")
  {
    seq(|labels|, i requires 0 <= i < |labels| => Some(show(labels[i]) + "\r"))
  }

  /** The points of the given lines. */
  function PointsOf(lines: seq<string>, parse: string -> Option<real>): (r: seq<seq<Option<real>>>)
    ensures |r| == |lines| && forall k :: 0 <= k < |lines| ==> r[k] == RowOf(lines[k], parse).0
  {
    seq(|lines|, k requires 0 <= k < |lines| => RowOf(lines[k], parse).0)
  }

  /** The labels of the given lines. */
  function TagsOf(lines: seq<string>, parse: string -> Option<real>): (r: seq<Option<string>>)
    ensures |r| == |lines| && forall k :: 0 <= k < |lines| ==> r[k] == RowOf(lines[k], parse).1
  {
    seq(|lines|, k requires 0 <= k < |lines| => RowOf(lines[k], parse).1)
  }

  /** Non-empty lines are each read as one point and one label, in order. */
  lemma {:induction false} ImportNonEmpty(lines: seq<string>, parse: string -> Option<real>)
    requires forall k :: 0 <= k < |lines| ==> lines[k] != ""
    ensures ImportRows(lines, parse) == (PointsOf(lines, parse), TagsOf(lines, parse))
  {
    if lines != [] {
      var n := |lines| - 1;
      ImportNonEmpty(lines[..n], parse);
      assert PointsOf(lines, parse) == PointsOf(lines[..n], parse) + [RowOf(lines[n], parse).0];
      assert TagsOf(lines, parse) == TagsOf(lines[..n], parse) + [RowOf(lines[n], parse).1];
    }
  }

  /** The exported rows are read back in order. */
  lemma ImportRowLines(data: seq<seq<real>>, labels: seq<real>, show: real -> string, parse: string -> Option<real>)
    requires SoundText(show, parse) && |labels| == |data|
    requires forall i :: 0 <= i < |data| ==> 1 <= |data[i]| <= 2
    ensures ImportRows(RowLines(data, labels, show), parse) == (LiftAll(data), LabelsRead(labels, show))
  {
    var lines := RowLines(data, labels, show);
    forall k | 0 <= k < |lines|
      ensures lines[k] != "" && RowOf(lines[k], parse) == (Lift(data[k]), Some(show(labels[k]) + "\r"))
    {
      RowRoundTrip(data[k], labels[k], show, parse);
      RowShape(data[k], show(labels[k]), show);
    }
    ImportNonEmpty(lines, parse);
    assert PointsOf(lines, parse) == LiftAll(data);
    assert TagsOf(lines, parse) == LabelsRead(labels, show);
  }

  /** No exported line holds a line break. */
  lemma LinesWithoutBreak(data: seq<seq<real>>, labels: seq<real>, show: real -> string, parse: string -> Option<real>)
    requires SoundText(show, parse) && |labels| == |data|
    requires forall i :: 0 <= i < |data| ==> 1 <= |data[i]| <= 2
    ensures forall i :: 0 <= i < |[Header] + RowLines(data, labels, show)| ==> '\n' !in ([Header] + RowLines(data, labels, show))[i]
  {
    var lines := [Header] + RowLines(data, labels, show);
    forall i | 0 <= i < |lines|
      ensures '\n' !in lines[i]
    {
      if i > 0 {
        var l := labels[i - 1];
        assert LabelText(labels, i - 1, show) == show(l);
        RowNoBreak(data[i - 1], l, show, parse);
      }
    }
  }

  /** An exported line holds no line break. */
  lemma RowNoBreak(row: seq<real>, l: real, show: real -> string, parse: string -> Option<real>)
    requires SoundText(show, parse) && 1 <= |row| <= 2
    ensures '\n' !in RowText(row, show(l), show)
  {
    RowShape(row, show(l), show);
    var x0 := row[0];
    assert '\n' !in show(x0) && '\n' !in show(l);
    if |row| == 2 {
      var x1 := row[1];
      assert '\n' !in show(x1);
    }
  }

  /** `Import(Export(lData, lLabels))` gives back points of one or two coordinates, and
      each label as its text followed by a carriage return. */
  lemma ExportImport(data: seq<seq<real>>, labels: seq<real>, show: real -> string, parse: string -> Option<real>)
    requires SoundText(show, parse) && |labels| == |data|
    requires forall i :: 0 <= i < |data| ==> 1 <= |data[i]| <= 2
    ensures ImportOf(ExportText(data, labels, show), parse) ==
      (LiftAll(data), LabelsRead(labels, show))
  {
    var rows := RowLines(data, labels, show);
    LinesWithoutBreak(data, labels, show, parse);
    SplitTerminated([Header] + rows, '\n');
    assert Split(ExportText(data, labels, show), '\n')[1..] == rows + [""];
    assert (rows + [""])[..|rows|] == rows;
    ImportRowLines(data, labels, show, parse);
  }
}
