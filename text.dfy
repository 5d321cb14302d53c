/** Strings as the text formats of VML use them: JavaScript's `split`, the
  joining of lines, integers written in decimal and read back by `parseInt`.

  Numbers other than counts go through text by two function-typed parameters:
  `show` stands for JavaScript's number-to-string conversion and `parse` for
  `parseFloat`, with `None` for `NaN`.
 */
module Text {
  import opened Wrappers

  /** The first position at which `sep` occurs in `s`. */
  function Find(s: string, sep: string): (r: Option<nat>)
    requires |sep| > 0
    ensures r.Some? ==> r.value + |sep| <= |s| && s[r.value..r.value + |sep|] == sep
    decreases |s|
  {
    if |s| < |sep| then None
    else if s[..|sep|] == sep then Some(0)
    else
      var k := Find(s[1..], sep);
      if k.None? then None
      else
        assert s[1..][k.value..k.value + |sep|] == s[k.value + 1..k.value + 1 + |sep|];
        Some(k.value + 1)
  }

  /** `s.split(sep)`: the pieces between the occurrences of `sep`, found left to right. */
  function SplitOn(s: string, sep: string): (r: seq<string>)
    requires |sep| > 0
    ensures |r| >= 1
    decreases |s|
  {
    var k := Find(s, sep);
    if k.None? then [s] else [s[..k.value]] + SplitOn(s[k.value + |sep|..], sep)
  }

  /** `s.split(c)` for a one-character separator. */
  function Split(s: string, c: char): (r: seq<string>)
    ensures |r| >= 1
  {
    SplitOn(s, [c])
  }

  /** The pieces with `c` between consecutive ones: `pieces.join(c)`. */
  function Join(pieces: seq<string>, c: char): string
    requires |pieces| >= 1
  {
    if |pieces| == 1 then pieces[0] else pieces[0] + [c] + Join(pieces[1..], c)
  }

  /** A one-character occurrence is the first occurrence of that character. */
  lemma {:induction false} FindChar(s: string, c: char)
    ensures Find(s, [c]).None? <==> c !in s
    ensures Find(s, [c]).Some? ==> s[Find(s, [c]).value] == c && c !in s[..Find(s, [c]).value]
  {
    if |s| >= 1 && s[0] != c {
      FindChar(s[1..], c);
      assert s == [s[0]] + s[1..];
      if Find(s[1..], [c]).Some? {
        var k := Find(s[1..], [c]).value;
        assert s[..k + 1] == [s[0]] + s[1..][..k];
      }
    } else if |s| >= 1 {
      assert s[..1] == [c];
    }
  }

  /** The first separator after a piece without one ends that piece. */
  lemma {:induction false} FindAfter(p: string, c: char, rest: string)
    requires c !in p
    ensures Find(p + [c] + rest, [c]) == Some(|p|)
  {
    var s := p + [c] + rest;
    if p == [] {
      assert s[..1] == [c];
    } else {
      assert s[..1] != [c] by {
        assert s[..1][0] == p[0];
      }
      FindAfter(p[1..], c, rest);
      assert s[1..] == p[1..] + [c] + rest;
    }
  }

  /** Splitting undoes joining when no piece holds the separator. */
  lemma {:induction false} SplitJoin(pieces: seq<string>, c: char)
    requires |pieces| >= 1
    requires forall i :: 0 <= i < |pieces| ==> c !in pieces[i]
    ensures Split(Join(pieces, c), c) == pieces
  {
    var s := Join(pieces, c);
    if |pieces| == 1 {
      FindChar(s, c);
    } else {
      var p := pieces[0];
      var rest := Join(pieces[1..], c);
      assert s == p + [c] + rest;
      FindAfter(p, c, rest);
      assert s[..|p|] == p;
      assert s[|p| + 1..] == rest;
      SplitJoin(pieces[1..], c);
      assert SplitOn(s, [c]) == [p] + Split(rest, c);
    }
  }

  /** Two pieces joined. */
  lemma JoinPair(x: string, y: string, c: char)
    ensures Join([x, y], c) == x + [c] + y
  {
    assert [x, y][1..] == [y];
  }

  /** Three pieces joined. */
  lemma JoinTriple(x: string, y: string, z: string, c: char)
    ensures Join([x, y, z], c) == x + [c] + (y + [c] + z)
  {
    assert [x, y, z][1..] == [y, z];
    JoinPair(y, z, c);
  }

  /** `": "` is not found in text without a colon. */
  lemma {:induction false} FindNoColon(q: string)
    requires ':' !in q
    ensures Find(q, ": ") == None
  {
    if |q| >= 2 {
      assert q[..2][0] == q[0];
      FindNoColon(q[1..]);
    }
  }

  /** `": "` after colon-free text is found right after it. */
  lemma FindColonSpace(p: string, rest: string)
    requires ':' !in p
    ensures Find(p + ": " + rest, ": ") == Some(|p|)
  {
    FindSepAfter(p, ": ", rest);
  }

  /** A separator after text free of its first character is found right after that text. */
  lemma {:induction false} FindSepAfter(p: string, sep: string, rest: string)
    requires |sep| > 0 && sep[0] !in p
    ensures Find(p + sep + rest, sep) == Some(|p|)
  {
    var s := p + sep + rest;
    if p == [] {
      assert s == sep + rest;
      assert s[..|sep|] == sep;
    } else {
      assert s[..|sep|] != sep by {
        if |s| >= |sep| {
          assert s[..|sep|][0] == p[0];
        }
      }
      assert s[1..] == p[1..] + sep + rest;
      FindSepAfter(p[1..], sep, rest);
    }
  }

  /** A `key: value` header splits into its key and its value. */
  lemma SplitKeyValue(key: string, value: string)
    requires ':' !in key && ':' !in value
    ensures SplitOn(key + ": " + value, ": ") == [key, value]
  {
    var s := key + ": " + value;
    FindColonSpace(key, value);
    assert s[..|key|] == key;
    assert s[|key| + 2..] == value;
    FindNoColon(value);
  }

  /** The first piece of a split is a prefix of the text. */
  lemma SplitFirstPrefix(s: string, sep: string)
    requires |sep| > 0
    ensures |SplitOn(s, sep)[0]| <= |s| && SplitOn(s, sep)[0] == s[..|SplitOn(s, sep)[0]|]
  {
  }

  /** Each line followed by `c`: text built by appending `line + "\n"` in a loop. */
  function Terminated(lines: seq<string>, c: char): string
  {
    if lines == [] then [] else Terminated(lines[..|lines| - 1], c) + lines[|lines| - 1] + [c]
  }

  /** Terminated lines are the lines and one empty last piece, joined. */
  lemma {:induction false} TerminatedJoin(lines: seq<string>, c: char)
    ensures Terminated(lines, c) == Join(lines + [""], c)
  {
    if lines != [] {
      var n := |lines| - 1;
      TerminatedJoin(lines[..n], c);
      var front := lines[..n] + [""];
      JoinSnoc(front, lines[n], c);
      assert front[..|front| - 1] + [lines[n], ""] == lines + [""];
    }
  }

  /** Joining with a last empty piece replaced by `x` appends `x`. */
  lemma {:induction false} JoinSnoc(front: seq<string>, x: string, c: char)
    requires |front| >= 1 && front[|front| - 1] == ""
    ensures Join(front[..|front| - 1] + [x, ""], c) == Join(front, c) + x + [c]
  {
    if |front| == 1 {
      assert front[..0] + [x, ""] == [x, ""];
    } else {
      var t := front[1..];
      JoinSnoc(t, x, c);
      assert (front[..|front| - 1] + [x, ""])[1..] == t[..|t| - 1] + [x, ""];
    }
  }

  /** Splitting terminated lines gives the lines and a last empty piece. */
  lemma SplitTerminated(lines: seq<string>, c: char)
    requires forall i :: 0 <= i < |lines| ==> c !in lines[i]
    ensures Split(Terminated(lines, c), c) == lines + [""]
  {
    TerminatedJoin(lines, c);
    SplitJoin(lines + [""], c);
  }

  /** No line holds a line break. */
  ghost predicate NoBreak(lines: seq<string>)
  {
    forall i :: 0 <= i < |lines| ==> '\n' !in lines[i]
  }

  /** Lines without a line break, concatenated. */
  lemma NoBreakConcat(a: seq<string>, b: seq<string>)
    requires NoBreak(a) && NoBreak(b)
    ensures NoBreak(a + b)
  {
    forall i | 0 <= i < |a + b|
      ensures '\n' !in (a + b)[i]
    {
      if i >= |a| {
        assert (a + b)[i] == b[i - |a|];
      }
    }
  }

  /** Appending one line to terminated text. */
  lemma TerminatedSnoc(lines: seq<string>, line: string, c: char)
    ensures Terminated(lines + [line], c) == Terminated(lines, c) + line + [c]
  {
    assert (lines + [line])[..|lines|] == lines;
  }

  /** A first line, then terminated lines. */
  lemma TerminatedCons(line: string, lines: seq<string>, c: char)
    ensures line + [c] + Terminated(lines, c) == Terminated([line] + lines, c)
  {
    TerminatedAppend([line], lines, c);
    TerminatedSnoc([], line, c);
    assert [] + [line] == [line];
  }

  /** Terminated text of two blocks of lines is the two texts one after the other. */
  lemma {:induction false} TerminatedAppend(a: seq<string>, b: seq<string>, c: char)
    ensures Terminated(a + b, c) == Terminated(a, c) + Terminated(b, c)
  {
    if b != [] {
      var n := |b| - 1;
      TerminatedAppend(a, b[..n], c);
      assert (a + b)[..|a + b| - 1] == a + b[..n];
    } else {
      assert a + b == a;
    }
  }

  /** `s.replace(",", " ")` with a one-character pattern: only the first occurrence changes. */
  function ReplaceFirst(s: string, c: char, d: char): (r: string)
    ensures |r| == |s|
  {
    if s == [] then [] else if s[0] == c then [d] + s[1..] else [s[0]] + ReplaceFirst(s[1..], c, d)
  }

  /** Text without the character is left alone. */
  lemma {:induction false} ReplaceFirstAbsent(s: string, c: char, d: char)
    requires c !in s
    ensures ReplaceFirst(s, c, d) == s
  {
    if s != [] {
      ReplaceFirstAbsent(s[1..], c, d);
    }
  }

  /** Only the first occurrence is replaced. */
  lemma {:induction false} ReplaceFirstAt(p: string, c: char, d: char, rest: string)
    requires c !in p
    ensures ReplaceFirst(p + [c] + rest, c, d) == p + [d] + rest
  {
    var s := p + [c] + rest;
    if p != [] {
      assert s[0] == p[0] && s[1..] == p[1..] + [c] + rest;
      ReplaceFirstAt(p[1..], c, d, rest);
    } else {
      assert s[1..] == rest;
    }
  }

  /** The tokens that are not empty, in order. */
  function NonEmpty(ts: seq<string>): (r: seq<string>)
    ensures forall i :: 0 <= i < |r| ==> r[i] != ""
  {
    if ts == [] then [] else if ts[|ts| - 1] == "" then NonEmpty(ts[..|ts| - 1]) else NonEmpty(ts[..|ts| - 1]) + [ts[|ts| - 1]]
  }

  // ---------------------------------------------------------------------------
  // Integers in decimal
  // ---------------------------------------------------------------------------

  predicate IsDigit(ch: char)
  {
    '0' <= ch <= '9'
  }

  function DigitChar(d: nat): char
    requires d < 10
  {
    "0123456789"[d]
  }

  /** String conversion of a count: its decimal digits, no sign, no leading zero. */
  function NatStr(n: nat): (r: string)
    ensures |r| >= 1 && forall i :: 0 <= i < |r| ==> IsDigit(r[i])
  {
    if n < 10 then [DigitChar(n)] else NatStr(n / 10) + [DigitChar(n % 10)]
  }

  /** The value of the digits of a number in base `radix`, most significant first. */
  function DigitValue(ch: char): nat
  {
    if '0' <= ch <= '9' then ch as nat - '0' as nat
    else if 'a' <= ch <= 'z' then ch as nat - 'a' as nat + 10
    else if 'A' <= ch <= 'Z' then ch as nat - 'A' as nat + 10
    else 36
  }

  function Value(ds: string, radix: nat): nat
  {
    if ds == [] then 0 else Value(ds[..|ds| - 1], radix) * radix + DigitValue(ds[|ds| - 1])
  }

  /** The longest prefix of digits of the radix. */
  function DigitPrefix(s: string, radix: nat): (r: string)
    ensures |r| <= |s| && r == s[..|r|]
  {
    if s != [] && DigitValue(s[0]) < radix then [s[0]] + DigitPrefix(s[1..], radix) else []
  }

  /** The white space `parseInt` skips: the ASCII layout characters, no-break space,
      byte-order mark, line and paragraph separators, and the Unicode space separators. */
  predicate IsSpace(ch: char)
  {
    ch == ' ' || ch == '\t' || ch == '\n' || ch == '\r' || ch == '\U{000B}' || ch == '\U{000C}' ||
    ch == '\U{00A0}' || ch == '\U{FEFF}' || ch == '\U{1680}' || ('\U{2000}' <= ch <= '\U{200A}') ||
    ch == '\U{2028}' || ch == '\U{2029}' || ch == '\U{202F}' || ch == '\U{205F}' || ch == '\U{3000}'
  }

  function TrimStart(s: string): (r: string)
    ensures |r| <= |s| && r == s[|s| - |r|..]
  {
    if s != [] && IsSpace(s[0]) then TrimStart(s[1..]) else s
  }

  /** `parseInt(s)` without a radix: leading white space skipped, an optional sign, a
      `0x`/`0X` prefix selecting base 16, then the longest run of digits. `None` is `NaN`. */
  function ParseInt(s: string): Option<int>
  {
    var t := TrimStart(s);
    var neg := t != [] && t[0] == '-';
    var u := if t != [] && (t[0] == '-' || t[0] == '+') then t[1..] else t;
    var v := ParseUnsigned(u);
    if v.None? then None else if neg then Some(-(v.value as int)) else Some(v.value)
  }

  /** The digits after the sign: base 16 after a `0x`/`0X` prefix, base 10 otherwise. */
  function ParseUnsigned(u: string): Option<nat>
  {
    if |u| >= 2 && u[0] == '0' && (u[1] == 'x' || u[1] == 'X') then Digits(u[2..], 16) else Digits(u, 10)
  }

  /** The value of the longest run of digits in `radix` at the start of `ds`, if any. */
  function Digits(ds: string, radix: nat): Option<nat>
  {
    var d := DigitPrefix(ds, radix);
    if d == [] then None else Some(Value(d, radix))
  }

  lemma {:induction false} DigitPrefixAll(s: string, radix: nat)
    requires forall i :: 0 <= i < |s| ==> DigitValue(s[i]) < radix
    ensures DigitPrefix(s, radix) == s
  {
    if s != [] {
      DigitPrefixAll(s[1..], radix);
    }
  }

  lemma {:induction false} NatStrValue(n: nat)
    ensures Value(NatStr(n), 10) == n
  {
    if n >= 10 {
      NatStrValue(n / 10);
      var s := NatStr(n);
      assert s[..|s| - 1] == NatStr(n / 10);
    }
  }

  /** `parseInt` reads back the decimal text of a count. */
  lemma ParseIntNatStr(n: nat)
    ensures ParseInt(NatStr(n)) == Some(n)
  {
    ParseIntDigits(NatStr(n));
    NatStrValue(n);
  }

  /** `parseInt` reads a run of decimal digits as its value. */
  lemma ParseIntDigits(s: string)
    requires |s| >= 1 && forall i :: 0 <= i < |s| ==> IsDigit(s[i])
    ensures ParseInt(s) == Some(Value(s, 10))
  {
    TrimDigits(s);
    DecimalDigits(s);
    assert !(|s| >= 2 && s[0] == '0' && (s[1] == 'x' || s[1] == 'X')) by {
      if |s| >= 2 {
        assert IsDigit(s[1]);
      }
    }
    assert ParseUnsigned(s) == Digits(s, 10) == Some(Value(s, 10));
  }

  /** Text starting with a digit has no leading white space or sign. */
  lemma TrimDigits(s: string)
    requires |s| >= 1 && IsDigit(s[0])
    ensures TrimStart(s) == s && s[0] != '-' && s[0] != '+'
  {
    assert !IsSpace(s[0]);
  }

  /** Decimal digits are read whole in base 10. */
  lemma DecimalDigits(s: string)
    requires forall i :: 0 <= i < |s| ==> IsDigit(s[i])
    ensures DigitPrefix(s, 10) == s
  {
    forall i | 0 <= i < |s|
      ensures DigitValue(s[i]) < 10
    {
      assert IsDigit(s[i]);
    }
    DigitPrefixAll(s, 10);
  }

  // ---------------------------------------------------------------------------
  // Numbers as text
  // ---------------------------------------------------------------------------

  /** What the round trips assume of the number conversions: every number is written
      as non-empty text free of the separators the formats use, and read back. */
  ghost predicate SoundText(show: real -> string, parse: string -> Option<real>)
  {
    forall x: real {:trigger show(x)} ::
      parse(show(x)) == Some(x) && show(x) != "" &&
      ' ' !in show(x) && ',' !in show(x) && '\n' !in show(x) && '\r' !in show(x)
  }

  /** The numbers read from the tokens of a line, in order. */
  function ParseAll(ts: seq<string>, parse: string -> Option<real>): (r: seq<Option<real>>)
    ensures |r| == |ts|
  {
    seq(|ts|, i requires 0 <= i < |ts| => parse(ts[i]))
  }

  /** A list of numbers as `parseFloat` gives them back. */
  function Lift(v: seq<real>): (r: seq<Option<real>>)
    ensures |r| == |v| && forall i :: 0 <= i < |v| ==> r[i] == Some(v[i])
  {
    seq(|v|, i requires 0 <= i < |v| => Some(v[i]))
  }

  /** Each row as `parseFloat` gives it back. */
  function LiftAll(data: seq<seq<real>>): (r: seq<seq<Option<real>>>)
    ensures |r| == |data| && forall i :: 0 <= i < |data| ==> r[i] == Lift(data[i])
  {
    seq(|data|, i requires 0 <= i < |data| => Lift(data[i]))
  }
}
