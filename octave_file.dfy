/** `vml_OctaveFileHelper`: a data set as an Octave text file.

  `Export` writes a banner, then the matrix `X` (a header block naming it,
  giving its type, rows and columns, then one line per row) and the matrix
  `Y` of labels in the same way, each block followed by two empty lines.
  `Import` reads the text line by line. A header whose `columns` value is 1
  sends the following lines to the labels, any other `columns` value sends them
  to the data; each data line is the list of numbers on it.
 */
module OctaveFile {
  import opened Wrappers
  import opened Text

  const Banner: string := "# Created by VML " + "(https://github.com/andreArtelt/vml)"

  /** The text the exporter writes for entry `j` of a row: the number, or
      "undefined" past the end of the row. */
  function CellText(row: seq<real>, j: nat, show: real -> string): string
  {
    if j < |row| then show(row[j]) else "undefined"
  }

  /** `" " + e0 + " " + e1 + ...` for the first `n` entries. */
  function Spaced(row: seq<real>, n: nat, show: real -> string): string
  {
    if n == 0 then "" else Spaced(row, n - 1, show) + " " + CellText(row, n - 1, show)
  }

  /** The line of one data row: entry 0 is always written, then entries 1 to `cols - 1`. */
  function RowLine(row: seq<real>, cols: nat, show: real -> string): string
  {
    Spaced(row, if cols == 0 then 1 else cols, show)
  }

  function DataLines(data: seq<seq<real>>, cols: nat, show: real -> string): (r: seq<string>)
    ensures |r| == |data|
  {
    seq(|data|, i requires 0 <= i < |data| => RowLine(data[i], cols, show))
  }

  function LabelLines(labels: seq<real>, show: real -> string): (r: seq<string>)
    ensures |r| == |labels|
  {
    seq(|labels|, i requires 0 <= i < |labels| => " " + show(labels[i]))
  }

  function HeaderLines(name: string, rows: nat, cols: nat): seq<string>
  {
    ["# name: " + name, "# type: matrix", "# rows: " + NatStr(rows), "# columns: " + NatStr(cols)]
  }

  /** The lines `Export` writes, the column count taken from the first row. */
  function ExportLines(data: seq<seq<real>>, labels: seq<real>, show: real -> string): seq<string>
    requires data != []
  {
    [Banner] + HeaderLines("X", |data|, |data[0]|) + DataLines(data, |data[0]|, show) + ["", ""] +
    HeaderLines("Y", |labels|, 1) + LabelLines(labels, show) + ["", ""]
  }

  /** What `Export(lData, lLabels)` returns: every line followed by a line break, or the
      `TypeError` of reading the length of `lData[0]` when there is no data. */
  function ExportText(data: seq<seq<real>>, labels: seq<real>, show: real -> string): Result<string>
  {
    if data == [] then Err("TypeError: lData[0] is undefined") else Ok(Terminated(ExportLines(data, labels, show), '\n'))
  }

  /** `Export(lData, lLabels)`. */
  method Export(data: seq<seq<real>>, labels: seq<real>, show: real -> string) returns (r: Result<string>)
    ensures r == ExportText(data, labels, show)
  {
    if |data| == 0 {
      return Err("TypeError: lData[0] is undefined");
    }
    var cols := |data[0]|;
    var s := Banner + "\n";
    assert s == Terminated([Banner], '\n') by {
      TerminatedSnoc([], Banner, '\n');
      assert [] + [Banner] == [Banner];
    }
    ghost var lines := [Banner];
    s := WriteHeader(s, lines, "X", |data|, cols);
    lines := lines + HeaderLines("X", |data|, cols);
    s := WriteRows(s, lines, data, cols, show);
    lines := lines + DataLines(data, cols, show);
    s := WriteBlank(s, lines);
    lines := lines + ["", ""];
    s := WriteHeader(s, lines, "Y", |labels|, 1);
    lines := lines + HeaderLines("Y", |labels|, 1);
    s := WriteLabels(s, lines, labels, show);
    lines := lines + LabelLines(labels, show);
    s := WriteBlank(s, lines);
    lines := lines + ["", ""];
    return Ok(s);
  }

  /** The four header lines of a matrix. */
  method WriteHeader(s0: string, ghost lines: seq<string>, name: string, rows: nat, cols: nat) returns (s: string)
    requires s0 == Terminated(lines, '\n')
    ensures s == Terminated(lines + HeaderLines(name, rows, cols), '\n')
  {
    var l0, l1, l2, l3 := "# name: " + name, "# type: matrix", "# rows: " + NatStr(rows), "# columns: " + NatStr(cols);
    TerminatedSnoc(lines, l0, '\n');
    TerminatedSnoc(lines + [l0], l1, '\n');
    TerminatedSnoc(lines + [l0] + [l1], l2, '\n');
    TerminatedSnoc(lines + [l0] + [l1] + [l2], l3, '\n');
    assert lines + [l0] + [l1] + [l2] + [l3] == lines + HeaderLines(name, rows, cols);
    s := s0 + l0 + "\n";
    s := s + l1 + "\n";
    s := s + l2 + "\n";
    s := s + l3 + "\n";
  }

  /** The `"\n\n"` after each matrix: two empty lines. */
  method WriteBlank(s0: string, ghost lines: seq<string>) returns (s: string)
    requires s0 == Terminated(lines, '\n')
    ensures s == Terminated(lines + ["", ""], '\n')
  {
    TerminatedSnoc(lines, "", '\n');
    TerminatedSnoc(lines + [""], "", '\n');
    assert lines + [""] + [""] == lines + ["", ""];
    s := s0 + "\n\n";
  }

  /** The loop over the rows of `Export`. */
  method WriteRows(s0: string, ghost lines: seq<string>, data: seq<seq<real>>, cols: nat, show: real -> string) returns (s: string)
    requires s0 == Terminated(lines, '\n')
    ensures s == Terminated(lines + DataLines(data, cols, show), '\n')
  {
    s := s0;
    var i := 0;
    assert lines + DataLines(data[..0], cols, show) == lines;
    while i != |data|
      invariant 0 <= i <= |data|
      invariant s == Terminated(lines + DataLines(data[..i], cols, show), '\n')
    {
      var line := WriteRow(data[i], cols, show);
      DataLinesSnoc(lines, data, i, cols, show);
      TerminatedSnoc(lines + DataLines(data[..i], cols, show), line, '\n');
      s := s + line + "\n";
      i := i + 1;
    }
    assert data[..|data|] == data;
  }

  lemma DataLinesSnoc(lines: seq<string>, data: seq<seq<real>>, i: nat, cols: nat, show: real -> string)
    requires i < |data|
    ensures lines + DataLines(data[..i + 1], cols, show) == (lines + DataLines(data[..i], cols, show)) + [RowLine(data[i], cols, show)]
  {
    assert DataLines(data[..i + 1], cols, show) == DataLines(data[..i], cols, show) + [RowLine(data[i], cols, show)];
  }

  lemma LabelLinesSnoc(lines: seq<string>, labels: seq<real>, i: nat, show: real -> string)
    requires i < |labels|
    ensures lines + LabelLines(labels[..i + 1], show) == (lines + LabelLines(labels[..i], show)) + [" " + show(labels[i])]
  {
    assert LabelLines(labels[..i + 1], show) == LabelLines(labels[..i], show) + [" " + show(labels[i])];
  }

  /** The inner loop of `Export`: the entries of one row, each after a space. */
  method WriteRow(row: seq<real>, cols: nat, show: real -> string) returns (line: string)
    ensures line == RowLine(row, cols, show)
  {
    line := " " + CellText(row, 0, show);
    var j := 1;
    assert line == Spaced(row, 1, show);
    while j < cols
      invariant 1 <= j <= (if cols == 0 then 1 else cols)
      invariant line == Spaced(row, j, show)
    {
      line := line + " " + CellText(row, j, show);
      j := j + 1;
    }
    assert j == (if cols == 0 then 1 else cols);
  }

  /** The loop over the labels of `Export`. */
  method WriteLabels(s0: string, ghost lines: seq<string>, labels: seq<real>, show: real -> string) returns (s: string)
    requires s0 == Terminated(lines, '\n')
    ensures s == Terminated(lines + LabelLines(labels, show), '\n')
  {
    s := s0;
    var i := 0;
    assert lines + LabelLines(labels[..0], show) == lines;
    while i != |labels|
      invariant 0 <= i <= |labels|
      invariant s == Terminated(lines + LabelLines(labels[..i], show), '\n')
    {
      LabelLinesSnoc(lines, labels, i, show);
      TerminatedSnoc(lines + LabelLines(labels[..i], show), " " + show(labels[i]), '\n');
      s := s + " " + show(labels[i]) + "\n";
      i := i + 1;
    }
    assert labels[..|labels|] == labels;
  }

  // ---------------------------------------------------------------------------
  // Import
  // ---------------------------------------------------------------------------

  /** The state of `Import`'s loop: `iIndex` (-1 before any `columns` header, 0 for data,
      1 for labels) and the two lists of `lResult`. */
  datatype Parser = Parser(index: int, data: seq<seq<Option<real>>>, labels: seq<seq<Option<real>>>)

  /** The numbers on a data line: split on spaces, empty tokens dropped, each parsed. */
  function PointOf(line: string, parse: string -> Option<real>): seq<Option<real>>
  {
    ParseAll(NonEmpty(Split(line, ' ')), parse)
  }

  /** One line. Empty lines and headers other than `type` and `columns` change nothing;
      a type other than "matrix" throws; `columns` selects the list the next data lines
      go to; a data line before any `columns` header pushes onto the undefined `lResult[-1]`. */
  function Step(st: Parser, line: string, parse: string -> Option<real>): Result<Parser>
  {
    if line == "" then Ok(st)
    else if |line| >= 2 && line[..2] == "# " then
      var kv := SplitOn(line[2..], ": ");
      if |kv| != 2 then Ok(st)
      else if kv[0] == "type" then (if kv[1] != "matrix" then Err("Invalid value of type") else Ok(st))
      else if kv[0] == "columns" then Ok(st.(index := if ParseInt(kv[1]) == Some(1) then 1 else 0))
      else Ok(st)
    else
      var point := PointOf(line, parse);
      if st.index == 0 then Ok(st.(data := st.data + [point]))
      else if st.index == 1 then Ok(st.(labels := st.labels + [point]))
      else Err("TypeError: lResult[iIndex] is undefined")
  }

  /** The lines processed in order from `st`, stopping at the first error. */
  function Run(st: Parser, lines: seq<string>, parse: string -> Option<real>): Result<Parser>
    decreases |lines|
  {
    if lines == [] then Ok(st)
    else
      var next := Step(st, lines[0], parse);
      if next.Err? then next else Run(next.value, lines[1..], parse)
  }

  const Start: Parser := Parser(-1, [], [])

  /** What `Import(strData)` returns: the data lists and the label lists. */
  function ImportOf(text: string, parse: string -> Option<real>): Result<(seq<seq<Option<real>>>, seq<seq<Option<real>>>)>
  {
    var st := Run(Start, Split(text, '\n'), parse);
    if st.Err? then Err(st.error) else Ok((st.value.data, st.value.labels))
  }

  /** The inner loop of `Import` over the tokens of a data line. */
  method ParseLine(line: string, parse: string -> Option<real>) returns (point: seq<Option<real>>)
    ensures point == PointOf(line, parse)
  {
    var tokens := Split(line, ' ');
    point := [];
    var j := 0;
    while j != |tokens|
      invariant 0 <= j <= |tokens|
      invariant point == ParseAll(NonEmpty(tokens[..j]), parse)
    {
      assert tokens[..j + 1][..j] == tokens[..j];
      if tokens[j] != "" {
        point := point + [parse(tokens[j])];
      }
      j := j + 1;
    }
    assert tokens[..|tokens|] == tokens;
  }

  /** `Import(strData)`. */
  method Import(text: string, parse: string -> Option<real>) returns (r: Result<(seq<seq<Option<real>>>, seq<seq<Option<real>>>)>)
    ensures r == ImportOf(text, parse)
  {
    var tokens := Split(text, '\n');
    var index := -1;
    var data: seq<seq<Option<real>>> := [];
    var labels: seq<seq<Option<real>>> := [];
    var i := 0;
    while i != |tokens|
      invariant 0 <= i <= |tokens|
      invariant Run(Start, tokens, parse) == Run(Parser(index, data, labels), tokens[i..], parse)
    {
      ghost var st := Parser(index, data, labels);
      assert tokens[i..][1..] == tokens[i + 1..];
      var line := tokens[i];
      if line == "" {
      } else if |line| >= 2 && line[..2] == "# " {
        var kv := SplitOn(line[2..], ": ");
        if |kv| != 2 {
        } else if kv[0] == "type" {
          if kv[1] != "matrix" {
            return Err("Invalid value of type");
          }
        } else if kv[0] == "columns" {
          if ParseInt(kv[1]) == Some(1) {
            index := 1;
          } else {
            index := 0;
          }
        }
      } else {
        var point := ParseLine(line, parse);
        if index == 0 {
          data := data + [point];
        } else if index == 1 {
          labels := labels + [point];
        } else {
          return Err("TypeError: lResult[iIndex] is undefined");
        }
      }
      assert Step(st, line, parse) == Ok(Parser(index, data, labels));
      i := i + 1;
    }
    return Ok((data, labels));
  }

  // ---------------------------------------------------------------------------
  // Round trip
  // ---------------------------------------------------------------------------

  /** Running two blocks of lines is running the second from where the first stops. */
  lemma {:induction false} RunAppend(st: Parser, a: seq<string>, b: seq<string>, parse: string -> Option<real>)
    ensures Run(st, a + b, parse) == (if Run(st, a, parse).Err? then Run(st, a, parse) else Run(Run(st, a, parse).value, b, parse))
    decreases |a|
  {
    if a != [] {
      assert (a + b)[0] == a[0] && (a + b)[1..] == a[1..] + b;
      var next := Step(st, a[0], parse);
      if next.Ok? {
        RunAppend(next.value, a[1..], b, parse);
      }
    } else {
      assert a + b == b;
    }
  }

  lemma RunEmptyLines(st: Parser, parse: string -> Option<real>)
    ensures Run(st, ["", ""], parse) == Ok(st)
    ensures Run(st, ["", "", ""], parse) == Ok(st)
  {
    assert ["", ""][1..] == [""] && [""][1..] == [];
    assert ["", "", ""][1..] == ["", ""];
  }

  /** A header whose text starts with neither `type` nor `columns` changes nothing. */
  lemma OtherHeader(st: Parser, line: string, parse: string -> Option<real>)
    requires |line| >= 3 && line[..2] == "# " && line[2] != 't' && line[2] != 'c'
    ensures Step(st, line, parse) == Ok(st)
  {
    var t := line[2..];
    SplitFirstPrefix(t, ": ");
    var key := SplitOn(t, ": ")[0];
    assert key != [] ==> key[0] == t[0];
  }

  /** The type header the exporter writes changes nothing. */
  lemma TypeMatrix(st: Parser, parse: string -> Option<real>)
    ensures Step(st, "# type: matrix", parse) == Ok(st)
  {
    assert "# type: matrix" == "# " + ("type" + ": " + "matrix");
    KeyValueHeader(st, "type", "matrix", parse);
  }

  /** The columns header selects the labels for one column and the data otherwise. */
  lemma ColumnsHeader(st: Parser, n: nat, parse: string -> Option<real>)
    ensures Step(st, "# columns: " + NatStr(n), parse) == Ok(st.(index := if n == 1 then 1 else 0))
  {
    var v := NatStr(n);
    var p := "# columns: ";
    assert p == "# " + "columns" + ": ";
    assert p + v == "# " + ("columns" + ": " + v);
    NatStrPlain(n);
    KeyValueHeader(st, "columns", v, parse);
    ParseIntNatStr(n);
  }

  /** A header line `# key: value` whose parts hold no colon. */
  lemma KeyValueHeader(st: Parser, key: string, value: string, parse: string -> Option<real>)
    requires ':' !in key && ':' !in value
    ensures Step(st, "# " + (key + ": " + value), parse) ==
      if key == "type" then (if value != "matrix" then Err("Invalid value of type") else Ok(st))
      else if key == "columns" then Ok(st.(index := if ParseInt(value) == Some(1) then 1 else 0))
      else Ok(st)
  {
    var line := "# " + (key + ": " + value);
    assert line[..2] == "# ";
    assert line[2..] == key + ": " + value;
    SplitKeyValue(key, value);
  }

  /** Decimal text holds neither a colon nor a line break. */
  lemma NatStrPlain(n: nat)
    ensures ':' !in NatStr(n) && '\n' !in NatStr(n)
  {
    var s := NatStr(n);
    forall i | 0 <= i < |s|
      ensures s[i] != ':' && s[i] != '\n'
    {
      assert IsDigit(s[i]);
    }
  }

  /** A run past a line that does not fail goes on from the state that line leaves. */
  lemma RunCons(st: Parser, line: string, rest: seq<string>, parse: string -> Option<real>)
    requires Step(st, line, parse).Ok?
    ensures Run(st, [line] + rest, parse) == Run(Step(st, line, parse).value, rest, parse)
  {
    assert ([line] + rest)[1..] == rest;
  }

  /** The header block of a matrix leaves the lists alone and selects the list for its
      rows: the labels for one column, the data otherwise. */
  lemma RunHeader(st: Parser, name: string, rows: nat, cols: nat, parse: string -> Option<real>)
    requires ':' !in name
    ensures Run(st, HeaderLines(name, rows, cols), parse) == Ok(st.(index := if cols == 1 then 1 else 0))
  {
    var s4 := st.(index := if cols == 1 then 1 else 0);
    var l0, l1, l2, l3 := "# name: " + name, "# type: matrix", "# rows: " + NatStr(rows), "# columns: " + NatStr(cols);
    assert l0[..2] == "# " && l0[2] == 'n';
    assert l2[..2] == "# " && l2[2] == 'r';
    OtherHeader(st, l0, parse);
    TypeMatrix(st, parse);
    OtherHeader(st, l2, parse);
    ColumnsHeader(st, cols, parse);
    RunCons(st, l3, [], parse);
    RunCons(st, l2, [l3], parse);
    RunCons(st, l1, [l2, l3], parse);
    RunCons(st, l0, [l1, l2, l3], parse);
    assert [l3] + [] == [l3] && [l2] + [l3] == [l2, l3] && [l1] + [l2, l3] == [l1, l2, l3];
    assert HeaderLines(name, rows, cols) == [l0] + [l1, l2, l3];
  }

  /** The banner changes nothing. */
  lemma RunBanner(st: Parser, parse: string -> Option<real>)
    ensures Run(st, [Banner], parse) == Ok(st)
  {
    assert Banner[0] == '#' && Banner[1] == ' ' && Banner[2] == 'C';
    assert Banner[..2] == "# ";
    OtherHeader(st, Banner, parse);
    assert [Banner][1..] == [];
  }

  /** The cells of a row of `cols` entries. */
  function Cells(row: seq<real>, n: nat, show: real -> string): (r: seq<string>)
    ensures |r| == n
  {
    seq(n, j requires 0 <= j < n => CellText(row, j, show))
  }

  lemma {:induction false} SpacedJoin(row: seq<real>, n: nat, show: real -> string)
    ensures Spaced(row, n, show) == Join([""] + Cells(row, n, show), ' ')
  {
    if n > 0 {
      SpacedJoin(row, n - 1, show);
      var p, q := [""] + Cells(row, n - 1, show), [""] + Cells(row, n, show);
      var x := CellText(row, n - 1, show);
      assert q == p + [x];
      var front := p + [""];
      JoinSnoc(front, x, ' ');
      assert front[..|front| - 1] + [x, ""] == q + [""];
      JoinDropEmpty(p, ' ');
      JoinDropEmpty(q, ' ');
      var a, b := Join(q, ' '), Spaced(row, n - 1, show) + " " + x;
      assert a + [' '] == b + [' '];
      assert a == (a + [' '])[..|a|] && b == (b + [' '])[..|b|];
    }
  }

  /** Joining with a last empty piece adds one separator. */
  lemma {:induction false} JoinDropEmpty(pieces: seq<string>, c: char)
    requires |pieces| >= 1
    ensures Join(pieces + [""], c) == Join(pieces, c) + [c]
  {
    if |pieces| > 1 {
      JoinDropEmpty(pieces[1..], c);
      assert (pieces + [""])[1..] == pieces[1..] + [""];
    }
  }

  lemma {:induction false} NonEmptyAll(ts: seq<string>)
    requires forall i :: 0 <= i < |ts| ==> ts[i] != ""
    ensures NonEmpty(ts) == ts
  {
    if ts != [] {
      NonEmptyAll(ts[..|ts| - 1]);
    }
  }

  lemma {:induction false} NonEmptyCons(ts: seq<string>)
    ensures NonEmpty([""] + ts) == NonEmpty(ts)
  {
    if ts != [] {
      NonEmptyCons(ts[..|ts| - 1]);
      assert ([""] + ts)[..|ts|] == [""] + ts[..|ts| - 1];
    }
  }

  /** The cells of a full row are the numbers' texts, which parse back. */
  lemma CellsShown(row: seq<real>, show: real -> string, parse: string -> Option<real>)
    requires SoundText(show, parse)
    ensures var cells := Cells(row, |row|, show);
      forall j :: 0 <= j < |row| ==>
        cells[j] == show(row[j]) && ' ' !in cells[j] && cells[j] != "" && parse(cells[j]) == Some(row[j])
  {
    var cells := Cells(row, |row|, show);
    forall j | 0 <= j < |row|
      ensures cells[j] == show(row[j]) && ' ' !in cells[j] && cells[j] != "" && parse(cells[j]) == Some(row[j])
    {
      var x := row[j];
      assert cells[j] == show(x);
    }
  }

  /** Splitting a written row on spaces gives an empty token, then the cells. */
  lemma RowTokens(row: seq<real>, show: real -> string, parse: string -> Option<real>)
    requires SoundText(show, parse) && |row| >= 1
    ensures Split(RowLine(row, |row|, show), ' ') == [""] + Cells(row, |row|, show)
  {
    var cells := Cells(row, |row|, show);
    CellsShown(row, show, parse);
    SpacedJoin(row, |row|, show);
    forall i | 0 <= i < |[""] + cells|
      ensures ' ' !in ([""] + cells)[i]
    {
      if i > 0 {
        assert ([""] + cells)[i] == cells[i - 1];
      }
    }
    SplitJoin([""] + cells, ' ');
  }

  /** The numbers on a written row are read back. */
  lemma ReadRow(row: seq<real>, show: real -> string, parse: string -> Option<real>)
    requires SoundText(show, parse) && |row| >= 1
    ensures PointOf(RowLine(row, |row|, show), parse) == Lift(row)
    ensures RowLine(row, |row|, show) != "" && RowLine(row, |row|, show)[0] == ' '
    ensures '\n' !in RowLine(row, |row|, show)
  {
    ReadRowPoint(row, show, parse);
    SpacedFacts(row, |row|, show);
  }

  lemma ReadRowPoint(row: seq<real>, show: real -> string, parse: string -> Option<real>)
    requires SoundText(show, parse) && |row| >= 1
    ensures PointOf(RowLine(row, |row|, show), parse) == Lift(row)
  {
    var cells := Cells(row, |row|, show);
    RowTokens(row, show, parse);
    CellsShown(row, show, parse);
    NonEmptyCons(cells);
    NonEmptyAll(cells);
    assert ParseAll(cells, parse) == Lift(row);
  }

  /** A spaced line starts with a space and holds no line break. */
  lemma {:induction false} SpacedFacts(row: seq<real>, n: nat, show: real -> string)
    requires n >= 1 && forall x: real {:trigger show(x)} :: '\n' !in show(x)
    ensures Spaced(row, n, show) != "" && Spaced(row, n, show)[0] == ' '
    ensures '\n' !in Spaced(row, n, show)
  {
    var c := CellText(row, n - 1, show);
    assert '\n' !in c by {
      if n - 1 < |row| {
        var x := row[n - 1];
        assert c == show(x);
      }
    }
    if n > 1 {
      SpacedFacts(row, n - 1, show);
    }
  }

  /** The points of data lines, in order. */
  function Points(lines: seq<string>, parse: string -> Option<real>): (r: seq<seq<Option<real>>>)
    ensures |r| == |lines|
  {
    seq(|lines|, k requires 0 <= k < |lines| => PointOf(lines[k], parse))
  }

  lemma PointsCons(lines: seq<string>, parse: string -> Option<real>)
    requires lines != []
    ensures Points(lines, parse) == [PointOf(lines[0], parse)] + Points(lines[1..], parse)
  {
    var l, r := Points(lines, parse), [PointOf(lines[0], parse)] + Points(lines[1..], parse);
    forall k | 0 <= k < |l|
      ensures l[k] == r[k]
    {
      if k > 0 {
        assert lines[1..][k - 1] == lines[k];
      }
    }
  }

  /** Lines that all start with a space go, in order, to the list that `index` selects. */
  lemma {:induction false} RunDataLines(st: Parser, lines: seq<string>, parse: string -> Option<real>)
    requires st.index == 0 || st.index == 1
    requires forall k :: 0 <= k < |lines| ==> lines[k] != [] && lines[k][0] == ' '
    ensures Run(st, lines, parse) ==
      Ok(if st.index == 0 then st.(data := st.data + Points(lines, parse)) else st.(labels := st.labels + Points(lines, parse)))
    decreases |lines|
  {
    if lines != [] {
      var pt, pts := PointOf(lines[0], parse), Points(lines[1..], parse);
      RunDataCons(st, lines, parse);
      RunDataLines(Pushed(st, [pt]), lines[1..], parse);
      PointsCons(lines, parse);
      PushedTwice(st, [pt], pts);
    } else {
      assert st.data + Points(lines, parse) == st.data && st.labels + Points(lines, parse) == st.labels;
    }
  }

  /** The parser state after the points `pts` went to the list that `index` selects. */
  function Pushed(st: Parser, pts: seq<seq<Option<real>>>): (r: Parser)
    ensures r.index == st.index
  {
    if st.index == 0 then st.(data := st.data + pts) else st.(labels := st.labels + pts)
  }

  lemma PushedTwice(st: Parser, a: seq<seq<Option<real>>>, b: seq<seq<Option<real>>>)
    ensures Pushed(Pushed(st, a), b) == Pushed(st, a + b)
  {
    assert st.data + a + b == st.data + (a + b);
    assert st.labels + a + b == st.labels + (a + b);
  }

  /** A run over a data line goes on from the state with its point pushed. */
  lemma RunDataCons(st: Parser, lines: seq<string>, parse: string -> Option<real>)
    requires st.index == 0 || st.index == 1
    requires lines != [] && lines[0] != [] && lines[0][0] == ' '
    ensures Run(st, lines, parse) == Run(Pushed(st, [PointOf(lines[0], parse)]), lines[1..], parse)
  {
    DataLine(st, lines[0], parse);
  }

  /** The rows of a rectangular data set go, in order, to the list that `index` selects. */
  lemma RunRows(st: Parser, data: seq<seq<real>>, cols: nat, show: real -> string, parse: string -> Option<real>)
    requires SoundText(show, parse) && cols >= 1 && (st.index == 0 || st.index == 1)
    requires forall i :: 0 <= i < |data| ==> |data[i]| == cols
    ensures Run(st, DataLines(data, cols, show), parse) ==
      Ok(if st.index == 0 then st.(data := st.data + LiftAll(data)) else st.(labels := st.labels + LiftAll(data)))
  {
    var lines := DataLines(data, cols, show);
    forall k | 0 <= k < |lines|
      ensures lines[k] != [] && lines[k][0] == ' ' && Points(lines, parse)[k] == LiftAll(data)[k]
    {
      ReadRow(data[k], show, parse);
    }
    RunDataLines(st, lines, parse);
    assert Points(lines, parse) == LiftAll(data);
  }

  /** A line starting with a space is a data line. */
  lemma DataLine(st: Parser, line: string, parse: string -> Option<real>)
    requires line != [] && line[0] == ' '
    ensures Step(st, line, parse) ==
      if st.index == 0 then Ok(st.(data := st.data + [PointOf(line, parse)]))
      else if st.index == 1 then Ok(st.(labels := st.labels + [PointOf(line, parse)]))
      else Err("TypeError: lResult[iIndex] is undefined")
  {
    assert !(|line| >= 2 && line[..2] == "# ") by {
      if |line| >= 2 {
        assert line[..2][0] == ' ';
      }
    }
  }

  /** Each label as a list of one number. */
  function Singletons(labels: seq<real>): (r: seq<seq<Option<real>>>)
    ensures |r| == |labels| && forall i :: 0 <= i < |labels| ==> r[i] == [Some(labels[i])]
  {
    seq(|labels|, i requires 0 <= i < |labels| => [Some(labels[i])])
  }

  lemma LabelLinesAsRows(labels: seq<real>, show: real -> string)
    ensures LabelLines(labels, show) == DataLines(seq(|labels|, i requires 0 <= i < |labels| => [labels[i]]), 1, show)
    ensures LiftAll(seq(|labels|, i requires 0 <= i < |labels| => [labels[i]])) == Singletons(labels)
  {
    var rows := seq(|labels|, i requires 0 <= i < |labels| => [labels[i]]);
    forall i | 0 <= i < |labels|
      ensures LabelLines(labels, show)[i] == DataLines(rows, 1, show)[i]
      ensures LiftAll(rows)[i] == Singletons(labels)[i]
    {
      assert rows[i] == [labels[i]];
      assert Spaced(rows[i], 0, show) == "" && CellText(rows[i], 0, show) == show(labels[i]);
      assert RowLine(rows[i], 1, show) == "" + " " + show(labels[i]);
      assert Lift(rows[i]) == [Some(labels[i])];
    }
  }

  lemma HeaderNoBreak(name: string, rows: nat, cols: nat)
    requires '\n' !in name
    ensures NoBreak(HeaderLines(name, rows, cols))
  {
    NatStrPlain(rows);
    NatStrPlain(cols);
  }

  lemma RowsNoBreak(data: seq<seq<real>>, show: real -> string, parse: string -> Option<real>)
    requires SoundText(show, parse) && data != [] && |data[0]| >= 1
    requires forall i :: 0 <= i < |data| ==> |data[i]| == |data[0]|
    ensures NoBreak(DataLines(data, |data[0]|, show))
  {
    var dl := DataLines(data, |data[0]|, show);
    forall i | 0 <= i < |dl|
      ensures '\n' !in dl[i]
    {
      ReadRow(data[i], show, parse);
    }
  }

  lemma LabelsNoBreak(labels: seq<real>, show: real -> string, parse: string -> Option<real>)
    requires SoundText(show, parse)
    ensures NoBreak(LabelLines(labels, show))
  {
    var ll := LabelLines(labels, show);
    forall i | 0 <= i < |ll|
      ensures '\n' !in ll[i]
    {
      var x := labels[i];
      assert ll[i] == " " + show(x);
    }
  }

  /** No exported line holds a line break. */
  lemma LinesWithoutBreak(data: seq<seq<real>>, labels: seq<real>, show: real -> string, parse: string -> Option<real>)
    requires SoundText(show, parse) && data != [] && |data[0]| >= 1
    requires forall i :: 0 <= i < |data| ==> |data[i]| == |data[0]|
    ensures NoBreak(ExportLines(data, labels, show))
  {
    var cols := |data[0]|;
    var hx, dl, hy, ll := HeaderLines("X", |data|, cols), DataLines(data, cols, show), HeaderLines("Y", |labels|, 1), LabelLines(labels, show);
    assert NoBreak([Banner]) by {
      assert Banner == "# Created by VML " + "(https://github.com/andreArtelt/vml)";
    }
    HeaderNoBreak("X", |data|, cols);
    RowsNoBreak(data, show, parse);
    HeaderNoBreak("Y", |labels|, 1);
    LabelsNoBreak(labels, show, parse);
    assert NoBreak(["", ""]);
    NoBreakConcat([Banner], hx);
    NoBreakConcat([Banner] + hx, dl);
    NoBreakConcat([Banner] + hx + dl, ["", ""]);
    NoBreakConcat([Banner] + hx + dl + ["", ""], hy);
    NoBreakConcat([Banner] + hx + dl + ["", ""] + hy, ll);
    NoBreakConcat([Banner] + hx + dl + ["", ""] + hy + ll, ["", ""]);
  }

  /** `Import(Export(lData, lLabels))` gives back the rows of a rectangular data set with
      at least two columns as the data and every label as a list of one number. */
  lemma ExportImport(data: seq<seq<real>>, labels: seq<real>, show: real -> string, parse: string -> Option<real>)
    requires SoundText(show, parse) && data != [] && |data[0]| >= 2
    requires forall i :: 0 <= i < |data| ==> |data[i]| == |data[0]|
    ensures ExportText(data, labels, show).Ok?
    ensures ImportOf(ExportText(data, labels, show).value, parse) == Ok((LiftAll(data), Singletons(labels)))
  {
    var st := RunExport(data, labels, show, parse);
    assert st == Parser(1, LiftAll(data), Singletons(labels));
  }

  /** With one column the data rows, like the labels after them, land among the labels:
      `Import` tells the two matrices apart by their column count only. */
  lemma ExportImportOneColumn(data: seq<seq<real>>, labels: seq<real>, show: real -> string, parse: string -> Option<real>)
    requires SoundText(show, parse) && data != [] && |data[0]| == 1
    requires forall i :: 0 <= i < |data| ==> |data[i]| == 1
    ensures ExportText(data, labels, show).Ok?
    ensures ImportOf(ExportText(data, labels, show).value, parse) == Ok(([], LiftAll(data) + Singletons(labels)))
  {
    var st := RunExport(data, labels, show, parse);
    assert st == Parser(1, [], LiftAll(data) + Singletons(labels));
  }

  /** Two blocks that each run without error run together. */
  lemma Chain(st: Parser, a: seq<string>, b: seq<string>, mid: Parser, fin: Parser, parse: string -> Option<real>)
    requires Run(st, a, parse) == Ok(mid) && Run(mid, b, parse) == Ok(fin)
    ensures Run(st, a + b, parse) == Ok(fin)
  {
    RunAppend(st, a, b, parse);
  }

  /** The banner and the matrix `X` with the empty lines after it. */
  lemma RunX(data: seq<seq<real>>, show: real -> string, parse: string -> Option<real>) returns (st: Parser)
    requires SoundText(show, parse) && data != [] && |data[0]| >= 1
    requires forall i :: 0 <= i < |data| ==> |data[i]| == |data[0]|
    ensures Run(Start, [Banner] + HeaderLines("X", |data|, |data[0]|) + DataLines(data, |data[0]|, show) + ["", ""], parse) == Ok(st)
    ensures st == if |data[0]| == 1 then Parser(1, [], LiftAll(data)) else Parser(0, LiftAll(data), [])
  {
    var cols := |data[0]|;
    var hx, dl := HeaderLines("X", |data|, cols), DataLines(data, cols, show);
    var s1 := Start.(index := if cols == 1 then 1 else 0);
    RunBanner(Start, parse);
    RunHeader(Start, "X", |data|, cols, parse);
    Chain(Start, [Banner], hx, Start, s1, parse);
    RunRows(s1, data, cols, show, parse);
    st := if s1.index == 0 then s1.(data := s1.data + LiftAll(data)) else s1.(labels := s1.labels + LiftAll(data));
    Chain(Start, [Banner] + hx, dl, s1, st, parse);
    RunEmptyLines(st, parse);
    Chain(Start, [Banner] + hx + dl, ["", ""], st, st, parse);
    assert [] + LiftAll(data) == LiftAll(data);
  }

  /** The matrix `Y`, the empty lines after it and the empty piece after the last line break. */
  lemma RunY(st: Parser, labels: seq<real>, show: real -> string, parse: string -> Option<real>)
    requires SoundText(show, parse)
    ensures Run(st, HeaderLines("Y", |labels|, 1) + LabelLines(labels, show) + ["", "", ""], parse) ==
      Ok(Parser(1, st.data, st.labels + Singletons(labels)))
  {
    var hy, ll := HeaderLines("Y", |labels|, 1), LabelLines(labels, show);
    var s3 := st.(index := 1);
    RunHeader(st, "Y", |labels|, 1, parse);
    var rows := seq(|labels|, i requires 0 <= i < |labels| => [labels[i]]);
    LabelLinesAsRows(labels, show);
    RunRows(s3, rows, 1, show, parse);
    var fin := Parser(1, st.data, st.labels + Singletons(labels));
    Chain(st, hy, ll, s3, fin, parse);
    RunEmptyLines(fin, parse);
    Chain(st, hy + ll, ["", "", ""], fin, fin, parse);
  }

  /** The exported text splits into its lines and an empty piece after the last break. */
  lemma ExportSplit(data: seq<seq<real>>, labels: seq<real>, show: real -> string, parse: string -> Option<real>)
    requires SoundText(show, parse) && data != [] && |data[0]| >= 1
    requires forall i :: 0 <= i < |data| ==> |data[i]| == |data[0]|
    ensures ExportText(data, labels, show).Ok?
    ensures Split(ExportText(data, labels, show).value, '\n') ==
      ([Banner] + HeaderLines("X", |data|, |data[0]|) + DataLines(data, |data[0]|, show) + ["", ""]) +
      (HeaderLines("Y", |labels|, 1) + LabelLines(labels, show) + ["", "", ""])
  {
    var lines := ExportLines(data, labels, show);
    LinesWithoutBreak(data, labels, show, parse);
    SplitTerminated(lines, '\n');
  }

  /** The run over the exported lines, block by block. */
  lemma RunExport(data: seq<seq<real>>, labels: seq<real>, show: real -> string, parse: string -> Option<real>) returns (st: Parser)
    requires SoundText(show, parse) && data != [] && |data[0]| >= 1
    requires forall i :: 0 <= i < |data| ==> |data[i]| == |data[0]|
    ensures ExportText(data, labels, show).Ok?
    ensures Run(Start, Split(ExportText(data, labels, show).value, '\n'), parse) == Ok(st)
    ensures var toLabels := |data[0]| == 1;
      st == Parser(1, if toLabels then [] else LiftAll(data), (if toLabels then LiftAll(data) else []) + Singletons(labels))
  {
    var cols := |data[0]|;
    var a := [Banner] + HeaderLines("X", |data|, cols) + DataLines(data, cols, show) + ["", ""];
    var b := HeaderLines("Y", |labels|, 1) + LabelLines(labels, show) + ["", "", ""];
    ExportSplit(data, labels, show, parse);
    var mid := RunX(data, show, parse);
    RunY(mid, labels, show, parse);
    st := Parser(1, mid.data, mid.labels + Singletons(labels));
    Chain(Start, a, b, mid, st, parse);
  }
}
