/** `vml_MatFileHelper`: export and import of a data set in the Level 4 MAT-file
  format (MathWorks, "MAT-File Format", chapter "Level 4 MAT-Files").

  A file is two matrices. Each is a 20-byte header of five big-endian 32-bit
  integers (type, rows, columns, imaginary flag, name length), a
  zero-terminated name, then the entries stored column by column. The data
  matrix `X` has type 1000 (big-endian IEEE doubles); the label matrix `Y` has
  type 1020 (32-bit integers) and one column. The buffer is a byte array read
  and written through a `DataView`, whose accessors are big-endian and throw a
  `RangeError` outside the buffer. The eight bytes of a double are an opaque
  pair of functions `enc`/`dec` assumed to round-trip.
 */
module MatFile {
  import opened Vectors
  import opened Wrappers
  import Utils

  newtype byte = x: int | 0 <= x < 256

  const TwoTo32: int := 0x1_0000_0000
  const TwoTo31: int := 0x8000_0000

  /** The element type codes: 1000 for doubles, 1020 for 32-bit integers. */
  const TypeDouble: int := 1000
  const TypeInt32: int := 1020

  /** An integer in the range of `getInt32`. */
  predicate IsInt32(v: int)
  {
    -TwoTo31 <= v < TwoTo31
  }

  /** `setInt32`/`setUint32`: the value modulo 2^32, most significant byte first. */
  function Int32Bytes(v: int): (r: seq<byte>)
    ensures |r| == 4
  {
    var u := v % TwoTo32;
    var r1 := u % 0x100_0000;
    var r2 := r1 % 0x1_0000;
    [(u / 0x100_0000) as byte, (r1 / 0x1_0000) as byte, (r2 / 256) as byte, (r2 % 256) as byte]
  }

  /** `256^k`. */
  function Radix(k: nat): nat
  {
    if k == 0 then 1 else 256 * Radix(k - 1)
  }

  /** The unsigned value of bytes, most significant first. */
  function BigEndian(b: seq<byte>): (r: nat)
    ensures r < Radix(|b|)
  {
    if b == [] then 0 else BigEndian(b[..|b| - 1]) * 256 + b[|b| - 1] as int
  }

  /** The unsigned value of four bytes. */
  function Uint32Of(b: seq<byte>): (r: int)
    requires |b| == 4
    ensures 0 <= r < TwoTo32
  {
    assert Radix(4) == TwoTo32;
    BigEndian(b)
  }

  /** `getInt32` on four bytes: big-endian two's complement. */
  function Int32Of(b: seq<byte>): (r: int)
    requires |b| == 4
    ensures IsInt32(r)
  {
    var u := Uint32Of(b);
    if u >= TwoTo31 then u - TwoTo32 else u
  }

  /** The four bytes hold the value modulo 2^32. */
  lemma Uint32OfBytes(v: int)
    ensures Uint32Of(Int32Bytes(v)) == v % TwoTo32
  {
    var u := v % TwoTo32;
    var r1 := u % 0x100_0000;
    var r2 := r1 % 0x1_0000;
    assert u == (u / 0x100_0000) * 0x100_0000 + r1;
    assert r1 == (r1 / 0x1_0000) * 0x1_0000 + r2;
    assert r2 == (r2 / 256) * 256 + r2 % 256;
    var b := Int32Bytes(v);
    assert b[..3][..2] == b[..2] && b[..2][..1] == b[..1] && b[..1][..0] == [] && b[..4] == b;
    assert BigEndian(b[..1]) == b[0] as int;
    assert BigEndian(b[..2]) == b[0] as int * 256 + b[1] as int;
    assert BigEndian(b[..3]) == b[0] as int * 0x1_0000 + b[1] as int * 256 + b[2] as int;
  }

  /** Reading back what `setInt32` wrote gives the value exactly when it is a 32-bit integer;
      a label written with `setUint32` and read with `getInt32` likewise. */
  lemma Int32RoundTrip(v: int)
    ensures Int32Of(Int32Bytes(v)) == v <==> IsInt32(v)
  {
    Uint32OfBytes(v);
    var u := v % TwoTo32;
    if IsInt32(v) {
      if v < 0 {
        assert u == v + TwoTo32;
      } else {
        assert u == v;
      }
    }
  }

  /** What the proofs assume of the double encoding: eight bytes that decode back. */
  ghost predicate SoundFloat(enc: real -> seq<byte>, dec: seq<byte> -> real)
  {
    forall x: real {:trigger enc(x)} :: |enc(x)| == 8 && dec(enc(x)) == x
  }

  // ---------------------------------------------------------------------------
  // Headers
  // ---------------------------------------------------------------------------

  /** The five header fields. */
  datatype Hdr = Hdr(typ: int, rows: int, cols: int, imagFlag: int, nameLen: int)

  /** The 20 bytes `SMatrixHdr.Write` stores. */
  function HeaderBytes(h: Hdr): (r: seq<byte>)
    ensures |r| == 20
  {
    Int32Bytes(h.typ) + Int32Bytes(h.rows) + Int32Bytes(h.cols) + Int32Bytes(h.imagFlag) + Int32Bytes(h.nameLen)
  }

  /** The 32-bit integer at `pos`; `None` for `getInt32`'s `RangeError`. */
  function Int32At(b: seq<byte>, pos: int): Option<int>
  {
    if pos < 0 || pos + 4 > |b| then None else Some(Int32Of(b[pos..pos + 4]))
  }

  /** The header `SMatrixHdr.Read` finds at `pos`; `None` when a field lies outside the buffer. */
  function HeaderAt(b: seq<byte>, pos: int): (r: Option<Hdr>)
    ensures r.Some? <==> 0 <= pos && pos + 20 <= |b|
  {
    if pos < 0 || pos + 20 > |b| then None
    else Some(Hdr(Int32At(b, pos).value, Int32At(b, pos + 4).value, Int32At(b, pos + 8).value,
                  Int32At(b, pos + 12).value, Int32At(b, pos + 16).value))
  }

  /** A header with 32-bit fields is read back as written, whatever surrounds it. */
  lemma HeaderRoundTrip(pre: seq<byte>, h: Hdr, post: seq<byte>)
    requires IsInt32(h.typ) && IsInt32(h.rows) && IsInt32(h.cols) && IsInt32(h.imagFlag) && IsInt32(h.nameLen)
    ensures HeaderAt(pre + HeaderBytes(h) + post, |pre|) == Some(h)
  {
    var b := pre + HeaderBytes(h) + post;
    var p := |pre|;
    assert b[p..p + 4] == Int32Bytes(h.typ);
    assert b[p + 4..p + 8] == Int32Bytes(h.rows);
    assert b[p + 8..p + 12] == Int32Bytes(h.cols);
    assert b[p + 12..p + 16] == Int32Bytes(h.imagFlag);
    assert b[p + 16..p + 20] == Int32Bytes(h.nameLen);
    Int32RoundTrip(h.typ);
    Int32RoundTrip(h.rows);
    Int32RoundTrip(h.cols);
    Int32RoundTrip(h.imagFlag);
    Int32RoundTrip(h.nameLen);
  }

  /** `s` with `bytes` stored from `pos` on. */
  function Splice(s: seq<byte>, pos: nat, bytes: seq<byte>): (r: seq<byte>)
    requires pos + |bytes| <= |s|
    ensures |r| == |s|
  {
    s[..pos] + bytes + s[pos + |bytes|..]
  }

  /** `Splice` entry by entry. */
  lemma SpliceAt(s: seq<byte>, pos: nat, bytes: seq<byte>, r: seq<byte>)
    requires pos + |bytes| <= |s| && |r| == |s|
    requires forall j :: 0 <= j < |r| ==> r[j] == if pos <= j < pos + |bytes| then bytes[j - pos] else s[j]
    ensures r == Splice(s, pos, bytes)
  {
    var t := Splice(s, pos, bytes);
    forall j | 0 <= j < |r|
      ensures r[j] == t[j]
    {
      if j < pos {
        assert t[j] == s[..pos][j];
      } else if j < pos + |bytes| {
        assert t[j] == bytes[j - pos];
      } else {
        assert t[j] == s[pos + |bytes|..][j - pos - |bytes|];
      }
    }
  }

  /** Two adjacent stores are one store of both. */
  lemma SpliceTwice(s: seq<byte>, pos: nat, a: seq<byte>, b: seq<byte>)
    requires pos + |a| + |b| <= |s|
    ensures Splice(Splice(s, pos, a), pos + |a|, b) == Splice(s, pos, a + b)
  {
    var t := Splice(s, pos, a);
    assert t[..pos + |a|] == s[..pos] + a;
    assert t[pos + |a| + |b|..] == s[pos + |a| + |b|..];
  }

  /** A store covering the whole buffer replaces it. */
  lemma SpliceWhole(s: seq<byte>, bytes: seq<byte>)
    requires |bytes| == |s|
    ensures Splice(s, 0, bytes) == bytes
  {
    assert s[|bytes|..] == [];
  }

  /** `DataView.set*`: the bytes of one value stored at `pos`. The positions `Export`
      writes to always lie inside the buffer it allocated. */
  method SetBytes(buf: array<byte>, pos: nat, bytes: seq<byte>) returns (next: nat)
    requires pos + |bytes| <= buf.Length
    modifies buf
    ensures next == pos + |bytes|
    ensures buf[..] == Splice(old(buf[..]), pos, bytes)
  {
    var k := 0;
    while k != |bytes|
      invariant 0 <= k <= |bytes|
      invariant forall j :: 0 <= j < buf.Length ==> buf[j] == if pos <= j < pos + k then bytes[j - pos] else old(buf[j])
    {
      buf[pos + k] := bytes[k];
      k := k + 1;
    }
    next := pos + k;
    SpliceAt(old(buf[..]), pos, bytes, buf[..]);
  }

  /** Field `k` of a header read from `start`: assigned when its bytes lie in the buffer
      and every earlier field was read, otherwise left at `prev`. */
  function FieldOr(b: seq<byte>, start: int, k: nat, prev: int): int
  {
    if 0 <= start && start + 4 * k + 4 <= |b| then Int32Of(b[start + 4 * k..start + 4 * k + 4]) else prev
  }

  class MatrixHeader {
    var typ: int
    var rows: int
    var cols: int
    var imagFlag: int
    var nameLen: int

    /** `new SMatrixHdr()`: all fields 0. */
    constructor()
      ensures typ == 0 && rows == 0 && cols == 0 && imagFlag == 0 && nameLen == 0
    {
      typ, rows, cols, imagFlag, nameLen := 0, 0, 0, 0, 0;
    }

    /** The fields as a value. */
    function Fields(): Hdr
      reads this
    {
      Hdr(typ, rows, cols, imagFlag, nameLen)
    }

    /** `Read(oData, iStart)`: the five fields read in turn, each assigned unless a read
        falls outside the buffer, where `getInt32` throws and the rest keep their values.
        On success the position has advanced by 20. */
    method Read(b: seq<byte>, start: int) returns (r: Result<int>)
      modifies this
      ensures r.Ok? <==> HeaderAt(b, start).Some?
      ensures r.Ok? ==> r.value == start + 20 && Fields() == HeaderAt(b, start).value
      ensures r.Err? ==> r.error == "RangeError"
      ensures typ == FieldOr(b, start, 0, old(typ)) && rows == FieldOr(b, start, 1, old(rows))
      ensures cols == FieldOr(b, start, 2, old(cols)) && imagFlag == FieldOr(b, start, 3, old(imagFlag))
      ensures nameLen == FieldOr(b, start, 4, old(nameLen))
    {
      var v := Int32At(b, start);
      if v.None? {
        return Err("RangeError");
      }
      typ := v.value;
      v := Int32At(b, start + 4);
      if v.None? {
        return Err("RangeError");
      }
      rows := v.value;
      v := Int32At(b, start + 8);
      if v.None? {
        return Err("RangeError");
      }
      cols := v.value;
      v := Int32At(b, start + 12);
      if v.None? {
        return Err("RangeError");
      }
      imagFlag := v.value;
      v := Int32At(b, start + 16);
      if v.None? {
        return Err("RangeError");
      }
      nameLen := v.value;
      return Ok(start + 20);
    }

    /** `Write(oData, iStart)`: the five fields stored in turn; the position advances by 20. */
    method Write(buf: array<byte>, start: nat) returns (next: nat)
      requires start + 20 <= buf.Length
      modifies buf
      ensures next == start + 20
      ensures buf[..] == Splice(old(buf[..]), start, HeaderBytes(Fields()))
    {
      ghost var b0 := buf[..];
      var t, rw, c, im, nl := Int32Bytes(typ), Int32Bytes(rows), Int32Bytes(cols), Int32Bytes(imagFlag), Int32Bytes(nameLen);
      var pos := SetBytes(buf, start, t);
      pos := SetBytes(buf, pos, rw);
      SpliceTwice(b0, start, t, rw);
      pos := SetBytes(buf, pos, c);
      SpliceTwice(b0, start, t + rw, c);
      pos := SetBytes(buf, pos, im);
      SpliceTwice(b0, start, t + rw + c, im);
      pos := SetBytes(buf, pos, nl);
      SpliceTwice(b0, start, t + rw + c + im, nl);
      next := pos;
    }
  }

  // ---------------------------------------------------------------------------
  // Column-major storage
  // ---------------------------------------------------------------------------

  /** Every row has the length of the first. */
  predicate Rect(m: Matrix)
  {
    m != [] ==> forall i :: 0 <= i < |m| ==> |m[i]| == |m[0]|
  }

  /** Column `j` of a rectangular matrix: the list `lCols[j]` that `flattenMatrix` builds. */
  function Column(m: Matrix, j: nat): (r: Vector)
    requires forall i :: 0 <= i < |m| ==> j < |m[i]|
    ensures |r| == |m| && forall i :: 0 <= i < |m| ==> r[i] == m[i][j]
  {
    seq(|m|, i requires 0 <= i < |m| => m[i][j])
  }

  /** The blocks joined in order, as repeated `concat` does. */
  function Concat(bs: seq<Vector>): Vector
  {
    if bs == [] then [] else Concat(bs[..|bs| - 1]) + bs[|bs| - 1]
  }

  /** In a concatenation of `k` blocks of length `r`, entry `j * r + i` is entry `i` of block `j`. */
  lemma {:induction false} ConcatAt(bs: seq<Vector>, r: nat, j: nat, i: nat)
    requires forall k :: 0 <= k < |bs| ==> |bs[k]| == r
    requires j < |bs| && i < r
    ensures |Concat(bs)| == |bs| * r
    ensures j * r + i < |Concat(bs)| && Concat(bs)[j * r + i] == bs[j][i]
  {
    ConcatLength(bs, r);
    var last := |bs| - 1;
    ConcatLength(bs[..last], r);
    if j < last {
      ConcatAt(bs[..last], r, j, i);
      Utils.MulLess(j, last, r, i);
    } else {
      assert Concat(bs) == Concat(bs[..last]) + bs[last];
      assert |Concat(bs[..last])| == j * r;
    }
    Utils.MulLess(j, |bs|, r, i);
  }

  lemma {:induction false} ConcatLength(bs: seq<Vector>, r: nat)
    requires forall k :: 0 <= k < |bs| ==> |bs[k]| == r
    ensures |Concat(bs)| == |bs| * r
  {
    if bs != [] {
      var n := |bs| - 1;
      ConcatLength(bs[..n], r);
      assert |Concat(bs)| == n * r + r;
      assert n * r + r == (n + 1) * r;
    }
  }

  /** `flattenMatrix`: the columns of the matrix one after the other. */
  function Flatten(m: Matrix): (r: Vector)
    requires Rect(m)
  {
    if m == [] then [] else Concat(seq(|m[0]|, j requires 0 <= j < |m[0]| => Column(m, j)))
  }

  /** Flattening is column-major: entry `j * rows + i` is `m[i][j]`, and there are
      `rows * cols` entries. */
  lemma FlattenAt(m: Matrix, i: nat, j: nat)
    requires Rect(m) && m != [] && i < |m| && j < |m[0]|
    ensures |Flatten(m)| == |m| * |m[0]|
    ensures j * |m| + i < |Flatten(m)| && Flatten(m)[j * |m| + i] == m[i][j]
  {
    var cols := seq(|m[0]|, c requires 0 <= c < |m[0]| => Column(m, c));
    ConcatAt(cols, |m|, j, i);
    assert |cols| * |m| == |m| * |m[0]|;
  }

  lemma FlattenLength(m: Matrix)
    requires Rect(m)
    ensures |Flatten(m)| == |m| * (if m == [] then 0 else |m[0]|)
  {
    if m != [] {
      ConcatLength(seq(|m[0]|, c requires 0 <= c < |m[0]| => Column(m, c)), |m|);
    }
  }

  /** `reshapeToMatrix(lData, iRows, iCols)`: row `i` holds the entries `i + j * rows`. */
  function Reshape(f: Vector, rows: nat, cols: nat): (r: Matrix)
    requires rows * cols <= |f|
    ensures |r| == rows && forall i :: 0 <= i < rows ==> |r[i]| == cols
  {
    seq(rows, i requires 0 <= i < rows => seq(cols, j requires 0 <= j < cols => ReshapeIndex(f, rows, cols, i, j)))
  }

  function ReshapeIndex(f: Vector, rows: nat, cols: nat, i: nat, j: nat): real
    requires rows * cols <= |f| && i < rows && j < cols
  {
    Utils.MulLess(j, cols, rows, i);
    f[j * rows + i]
  }

  /** Reshaping undoes flattening. */
  lemma ReshapeFlatten(m: Matrix)
    requires Rect(m) && m != []
    ensures |Flatten(m)| == |m| * |m[0]|
    ensures Reshape(Flatten(m), |m|, |m[0]|) == m
  {
    FlattenLength(m);
    var r := Reshape(Flatten(m), |m|, |m[0]|);
    forall i, j | 0 <= i < |m| && 0 <= j < |m[0]|
      ensures r[i][j] == m[i][j]
    {
      FlattenAt(m, i, j);
    }
    forall i | 0 <= i < |m|
      ensures r[i] == m[i]
    {
    }
  }

  /** `flattenMatrix`: a list per column, each entry of each row appended to its column,
      then the columns joined. */
  method FlattenMatrix(m: Matrix) returns (r: Vector)
    requires Rect(m)
    ensures r == Flatten(m)
  {
    if |m| == 0 {
      return [];
    }
    var dim := |m[0]|;
    var cols := Utils.FillList(dim, []);
    var i := 0;
    while i != |m|
      invariant 0 <= i <= |m| && |cols| == dim
      invariant forall j :: 0 <= j < dim ==> cols[j] == Column(m[..i], j)
    {
      var j := 0;
      ghost var before := cols;
      while j != dim
        invariant 0 <= j <= dim && |cols| == dim
        invariant forall k :: 0 <= k < j ==> cols[k] == before[k] + [m[i][k]]
        invariant forall k :: j <= k < dim ==> cols[k] == before[k]
      {
        cols := cols[j := cols[j] + [m[i][j]]];
        j := j + 1;
      }
      forall k | 0 <= k < dim
        ensures cols[k] == Column(m[..i + 1], k)
      {
        assert Column(m[..i + 1], k) == Column(m[..i], k) + [m[i][k]];
      }
      i := i + 1;
    }
    assert m[..|m|] == m;
    r := [];
    var k := 0;
    ghost var spec := seq(dim, c requires 0 <= c < dim => Column(m, c));
    while k != dim
      invariant 0 <= k <= dim && r == Concat(spec[..k])
    {
      assert spec[..k + 1][..k] == spec[..k];
      r := r + cols[k];
      k := k + 1;
    }
    assert spec[..dim] == spec;
  }

  /** `reshapeToMatrix(lData, iRows, iCols)`. */
  method ReshapeToMatrix(f: Vector, rows: nat, cols: nat) returns (r: Matrix)
    requires rows * cols <= |f|
    ensures r == Reshape(f, rows, cols)
  {
    r := [];
    var i := 0;
    while i != rows
      invariant 0 <= i <= rows && r == Reshape(f, rows, cols)[..i]
    {
      var row := [];
      var j := 0;
      while j != cols
        invariant 0 <= j <= cols && row == Reshape(f, rows, cols)[i][..j]
      {
        Utils.MulLess(j, cols, rows, i);
        row := row + [f[i + j * rows]];
        j := j + 1;
      }
      assert Reshape(f, rows, cols)[i][..cols] == Reshape(f, rows, cols)[i];
      assert Reshape(f, rows, cols)[..i + 1] == Reshape(f, rows, cols)[..i] + [row];
      r := r + [row];
      i := i + 1;
    }
    assert Reshape(f, rows, cols)[..rows] == Reshape(f, rows, cols);
  }

  // ---------------------------------------------------------------------------
  // Export and Import
  // ---------------------------------------------------------------------------

  /** The encodings of the entries, eight bytes each. */
  function Floats(v: Vector, enc: real -> seq<byte>): seq<byte>
  {
    if v == [] then [] else Floats(v[..|v| - 1], enc) + enc(v[|v| - 1])
  }

  /** The `n` doubles stored from `pos`; `None` when one lies outside the buffer. */
  function FloatsAt(b: seq<byte>, pos: int, n: nat, dec: seq<byte> -> real): (r: Option<Vector>)
    ensures r.Some? <==> n == 0 || (0 <= pos && pos + 8 * n <= |b|)
    ensures r.Some? ==> |r.value| == n
  {
    if n == 0 then Some([])
    else
      var prev := FloatsAt(b, pos, n - 1, dec);
      var p := pos + 8 * (n - 1);
      if prev.None? || p < 0 || p + 8 > |b| then None else Some(prev.value + [dec(b[p..p + 8])])
  }

  /** The labels, four bytes each. */
  function Int32s(l: seq<int>): seq<byte>
  {
    if l == [] then [] else Int32s(l[..|l| - 1]) + Int32Bytes(l[|l| - 1])
  }

  /** The `n` 32-bit integers stored from `pos`; `None` when one lies outside the buffer. */
  function Int32sAt(b: seq<byte>, pos: int, n: nat): (r: Option<seq<int>>)
    ensures r.Some? <==> n == 0 || (0 <= pos && pos + 4 * n <= |b|)
    ensures r.Some? ==> |r.value| == n
  {
    if n == 0 then Some([])
    else
      var prev := Int32sAt(b, pos, n - 1);
      var p := pos + 4 * (n - 1);
      if prev.None? || p < 0 || p + 4 > |b| then None else Some(prev.value + [Int32Of(b[p..p + 4])])
  }

  lemma {:induction false} FloatsLength(v: Vector, enc: real -> seq<byte>, dec: seq<byte> -> real)
    requires SoundFloat(enc, dec)
    ensures |Floats(v, enc)| == 8 * |v|
  {
    if v != [] {
      FloatsLength(v[..|v| - 1], enc, dec);
      var x := v[|v| - 1];
      assert |enc(x)| == 8;
    }
  }

  /** Doubles are read back as written, whatever surrounds them. */
  lemma {:induction false} FloatsRoundTrip(pre: seq<byte>, v: Vector, post: seq<byte>, enc: real -> seq<byte>, dec: seq<byte> -> real)
    requires SoundFloat(enc, dec)
    ensures FloatsAt(pre + Floats(v, enc) + post, |pre|, |v|, dec) == Some(v)
  {
    if v != [] {
      var n := |v| - 1;
      var x := v[n];
      FloatsRoundTrip(pre, v[..n], enc(x) + post, enc, dec);
      FloatsLength(v[..n], enc, dec);
      assert pre + Floats(v, enc) + post == pre + Floats(v[..n], enc) + (enc(x) + post);
      var b := pre + Floats(v, enc) + post;
      var p := |pre| + 8 * n;
      assert |enc(x)| == 8;
      assert b[p..p + 8] == enc(x);
      assert v[..n] + [x] == v;
    }
  }

  lemma {:induction false} Int32sLength(l: seq<int>)
    ensures |Int32s(l)| == 4 * |l|
  {
    if l != [] {
      Int32sLength(l[..|l| - 1]);
    }
  }

  /** 32-bit labels are read back as written, whatever surrounds them. */
  lemma {:induction false} Int32sRoundTrip(pre: seq<byte>, l: seq<int>, post: seq<byte>)
    requires forall i :: 0 <= i < |l| ==> IsInt32(l[i])
    ensures Int32sAt(pre + Int32s(l) + post, |pre|, |l|) == Some(l)
  {
    if l != [] {
      var n := |l| - 1;
      var x := l[n];
      var m, bx := Int32s(l[..n]), Int32Bytes(x);
      Int32sRoundTrip(pre, l[..n], bx + post);
      Int32sLength(l[..n]);
      assert Int32s(l) == m + bx;
      Middle(pre, m, bx, post);
      Int32RoundTrip(x);
      Int32sAtSnoc(pre + m + (bx + post), |pre|, n, l[..n], x);
      assert l[..n] + [x] == l;
    }
  }

  /** The bytes of `mid` inside a concatenation, regrouped. */
  lemma Middle(pre: seq<byte>, m: seq<byte>, mid: seq<byte>, post: seq<byte>)
    ensures pre + (m + mid) + post == pre + m + (mid + post)
    ensures (pre + m + (mid + post))[|pre| + |m|..|pre| + |m| + |mid|] == mid
  {
  }

  /** One more integer read after `n` that were read. */
  lemma Int32sAtSnoc(b: seq<byte>, pos: nat, n: nat, prev: seq<int>, x: int)
    requires Int32sAt(b, pos, n) == Some(prev) && pos + 4 * (n + 1) <= |b|
    requires Int32Of(b[pos + 4 * n..pos + 4 * n + 4]) == x
    ensures Int32sAt(b, pos, n + 1) == Some(prev + [x])
  {
  }

  /** The header of the data matrix `X` and the header of the label matrix `Y`. */
  function HeaderX(data: Matrix): Hdr
    requires data != []
  {
    Hdr(TypeDouble, |data|, |data[0]|, 0, 2)
  }

  function HeaderY(labels: seq<int>): Hdr
  {
    Hdr(TypeInt32, |labels|, 1, 0, 2)
  }

  /** The buffer `Export` fills: header and name of `X`, its entries column by column,
      header and name of `Y`, the labels. */
  function ExportBytes(data: Matrix, labels: seq<int>, enc: real -> seq<byte>): seq<byte>
    requires data != [] && Rect(data)
  {
    HeaderBytes(HeaderX(data)) + [88, 0] + Floats(Flatten(data), enc) +
    HeaderBytes(HeaderY(labels)) + [89, 0] + Int32s(labels)
  }

  /** The size `Export` allocates: two headers, two names, four bytes per label and eight per entry. */
  function ExportSize(data: Matrix, labels: seq<int>): nat
    requires data != []
  {
    44 + 4 * |labels| + 8 * (|data| * |data[0]|)
  }

  /** The writes fill the allocated buffer exactly. */
  lemma ExportFills(data: Matrix, labels: seq<int>, enc: real -> seq<byte>, dec: seq<byte> -> real)
    requires data != [] && Rect(data) && SoundFloat(enc, dec)
    ensures |ExportBytes(data, labels, enc)| == ExportSize(data, labels)
  {
    FlattenLength(data);
    FloatsLength(Flatten(data), enc, dec);
    Int32sLength(labels);
  }

  /** The first half of `Import`: the data matrix `X` and the position after it.
      `RangeError` when a read falls outside the buffer (a negative entry count makes
      the read loop run until one does), "Invalid format" unless `X` is a real double matrix. */
  function XAt(b: seq<byte>, dec: seq<byte> -> real): (r: Result<(Matrix, int)>)
    requires !Hangs(b)
  {
    var h := HeaderAt(b, 0);
    if h.None? then Err("RangeError")
    else if h.value.typ != TypeDouble || h.value.imagFlag != 0 then Err("Invalid format")
    else
      var pos := 20 + h.value.nameLen;
      var n := h.value.rows * h.value.cols;
      if n < 0 then Err("RangeError")
      else
        var flat := FloatsAt(b, pos, n, dec);
        if flat.None? then Err("RangeError")
        else
          FactorSign(h.value.rows, h.value.cols);
          Ok((Reshape(flat.value, h.value.rows, if h.value.rows == 0 then 0 else h.value.cols), pos + 8 * n))
  }

  /** The second half of `Import`: the labels of the matrix `Y` stored from `pos`.
      "Invalid format" unless `Y` is a real one-column integer matrix. */
  function YAt(b: seq<byte>, pos: int): Result<seq<int>>
  {
    var h := HeaderAt(b, pos);
    if h.None? then Err("RangeError")
    else if h.value.typ != TypeInt32 || h.value.cols != 1 || h.value.imagFlag != 0 then Err("Invalid format")
    else if h.value.rows < 0 then Err("RangeError")
    else
      var ls := Int32sAt(b, pos + 20 + h.value.nameLen, h.value.rows);
      if ls.None? then Err("RangeError") else Ok(ls.value)
  }

  /** What `Import(oBuffer)` returns: the first error met, or both matrices. */
  function ImportOf(b: seq<byte>, dec: seq<byte> -> real): Result<(Matrix, seq<int>)>
    requires !Hangs(b)
  {
    var x := XAt(b, dec);
    if x.Err? then Err(x.error)
    else
      var y := YAt(b, x.value.1);
      if y.Err? then Err(y.error) else Ok((x.value.0, y.value))
  }

  /** The buffers on which `Import` does not stop: `X` is accepted with a negative row
      count and a non-negative entry count whose entries were all read, so the loop of
      `reshapeToMatrix` never meets `i == iRows`. */
  predicate Hangs(b: seq<byte>)
  {
    var h := HeaderAt(b, 0);
    h.Some? && h.value.typ == TypeDouble && h.value.imagFlag == 0 && h.value.rows < 0 &&
    var n := h.value.rows * h.value.cols;
    n >= 0 && (n == 0 || (0 <= 20 + h.value.nameLen && 20 + h.value.nameLen + 8 * n <= |b|))
  }

  /** A non-negative product with a positive factor has a non-negative other factor. */
  lemma FactorSign(a: int, c: int)
    ensures a > 0 && a * c >= 0 ==> c >= 0
  {
    if a > 0 && c < 0 {
      assert a * c <= c;
    }
  }

  /** The export buffer grouped around each part a reader looks at. */
  lemma Regroup<T>(h1: seq<T>, n1: seq<T>, x: seq<T>, h2: seq<T>, n2: seq<T>, y: seq<T>)
    ensures h1 + n1 + x + h2 + n2 + y == [] + h1 + (n1 + x + h2 + n2 + y)
    ensures h1 + n1 + x + h2 + n2 + y == (h1 + n1) + x + (h2 + n2 + y)
    ensures h1 + n1 + x + h2 + n2 + y == (h1 + n1 + x) + h2 + (n2 + y)
    ensures h1 + n1 + x + h2 + n2 + y == (h1 + n1 + x + h2 + n2) + y + []
  {
  }

  /** A buffer holding a real double matrix header with positive sizes and all its
      entries yields that matrix. */
  lemma XAtOf(b: seq<byte>, dec: seq<byte> -> real, h: Hdr, flat: Vector)
    requires HeaderAt(b, 0) == Some(h) && h.typ == TypeDouble && h.imagFlag == 0 && h.rows > 0 && h.cols >= 0
    requires FloatsAt(b, 20 + h.nameLen, h.rows * h.cols, dec) == Some(flat)
    ensures !Hangs(b)
    ensures XAt(b, dec) == Ok((Reshape(flat, h.rows, h.cols), 20 + h.nameLen + 8 * (h.rows * h.cols)))
  {
    NonNegProduct(h.rows, h.cols);
    assert !Hangs(b) by {
      assert HeaderAt(b, 0).value.rows > 0;
    }
  }

  lemma NonNegProduct(a: nat, c: nat)
    ensures a * c >= 0
  {
  }

  /** The exported `X` is read back, and `Y` starts right after it. */
  lemma ExportedX(data: Matrix, labels: seq<int>, enc: real -> seq<byte>, dec: seq<byte> -> real)
    requires data != [] && Rect(data) && SoundFloat(enc, dec)
    requires |data| < TwoTo31 && |data[0]| < TwoTo31
    ensures !Hangs(ExportBytes(data, labels, enc))
    ensures XAt(ExportBytes(data, labels, enc), dec) == Ok((data, 22 + 8 * (|data| * |data[0]|)))
  {
    ExportedXParts(data, labels, enc, dec);
    ExportedXOf(ExportBytes(data, labels, enc), data, dec);
  }

  /** Bytes that start like an export of `data` read back as `data`. */
  lemma ExportedXOf(b: seq<byte>, data: Matrix, dec: seq<byte> -> real)
    requires data != [] && Rect(data)
    requires HeaderAt(b, 0) == Some(HeaderX(data))
    requires FloatsAt(b, 22, |Flatten(data)|, dec) == Some(Flatten(data))
    ensures !Hangs(b)
    ensures XAt(b, dec) == Ok((data, 22 + 8 * (|data| * |data[0]|)))
  {
    ReshapeFlatten(data);
    var h, flat := HeaderX(data), Flatten(data);
    assert h.rows * h.cols == |flat|;
    assert 20 + h.nameLen + 8 * (h.rows * h.cols) == 22 + 8 * (|data| * |data[0]|);
    XAtOf(b, dec, h, flat);
  }

  /** The exported bytes start with the header of `X`, and its entries follow the name. */
  lemma ExportedXParts(data: Matrix, labels: seq<int>, enc: real -> seq<byte>, dec: seq<byte> -> real)
    requires data != [] && Rect(data) && SoundFloat(enc, dec)
    requires |data| < TwoTo31 && |data[0]| < TwoTo31
    ensures HeaderAt(ExportBytes(data, labels, enc), 0) == Some(HeaderX(data))
    ensures FloatsAt(ExportBytes(data, labels, enc), 22, |Flatten(data)|, dec) == Some(Flatten(data))
  {
    var flat := Flatten(data);
    var hx := HeaderX(data);
    var hb, fx, hy, fy := HeaderBytes(hx), Floats(flat, enc), HeaderBytes(HeaderY(labels)), Int32s(labels);
    Regroup(hb, [88, 0], fx, hy, [89, 0], fy);
    HeaderRoundTrip([], hx, [88, 0] + fx + hy + [89, 0] + fy);
    FloatsRoundTrip(hb + [88, 0], flat, hy + [89, 0] + fy, enc, dec);
  }

  /** The exported `Y` is read back from where `X` ends. */
  lemma ExportedY(data: Matrix, labels: seq<int>, enc: real -> seq<byte>, dec: seq<byte> -> real)
    requires data != [] && Rect(data) && SoundFloat(enc, dec)
    requires |labels| < TwoTo31 && forall i :: 0 <= i < |labels| ==> IsInt32(labels[i])
    ensures YAt(ExportBytes(data, labels, enc), 22 + 8 * (|data| * |data[0]|)) == Ok(labels)
  {
    var b := ExportBytes(data, labels, enc);
    var flat := Flatten(data);
    var hy := HeaderY(labels);
    var hb, fx, yb, fy := HeaderBytes(HeaderX(data)), Floats(flat, enc), HeaderBytes(hy), Int32s(labels);
    Regroup(hb, [88, 0], fx, yb, [89, 0], fy);
    FlattenLength(data);
    FloatsLength(flat, enc, dec);
    var pre := hb + [88, 0] + fx;
    assert |pre| == 22 + 8 * (|data| * |data[0]|);
    HeaderRoundTrip(pre, hy, [89, 0] + fy);
    Int32sRoundTrip(pre + yb + [89, 0], labels, []);
  }

  /** `Import(Export(lData, lLabels))` gives back the data and the labels, for a
      non-empty rectangular data set whose sizes and labels are 32-bit integers. */
  lemma ExportImport(data: Matrix, labels: seq<int>, enc: real -> seq<byte>, dec: seq<byte> -> real)
    requires data != [] && Rect(data) && SoundFloat(enc, dec)
    requires |data| < TwoTo31 && |data[0]| < TwoTo31 && |labels| < TwoTo31
    requires forall i :: 0 <= i < |labels| ==> IsInt32(labels[i])
    ensures !Hangs(ExportBytes(data, labels, enc))
    ensures ImportOf(ExportBytes(data, labels, enc), dec) == Ok((data, labels))
  {
    ExportedX(data, labels, enc, dec);
    ExportedY(data, labels, enc, dec);
  }

  /** `Export(lData, lLabels)`: "Empty data" for an empty data set or label list; otherwise
      a fresh buffer of `ExportSize` bytes holding `ExportBytes`. */
  method Export(data: Matrix, labels: seq<int>, enc: real -> seq<byte>, ghost dec: seq<byte> -> real) returns (r: Result<array<byte>>)
    requires Rect(data) && SoundFloat(enc, dec)
    ensures r.Err? <==> data == [] || labels == []
    ensures r.Err? ==> r.error == "Empty data"
    ensures r.Ok? ==> fresh(r.value) && r.value.Length == ExportSize(data, labels) && r.value[..] == ExportBytes(data, labels, enc)
  {
    if |data| == 0 || |labels| == 0 {
      return Err("Empty data");
    }
    var size := 44 + 4 * |labels| + 8 * (|data| * |data[0]|);
    var buf := new byte[size];
    ghost var b0 := buf[..];
    var pos := WriteX(buf, data, enc, dec);
    WriteY(buf, pos, labels);
    ExportLayout(b0, data, labels, enc, dec);
    return Ok(buf);
  }

  /** Storing `X` at the start and `Y` right after it fills the buffer with `ExportBytes`. */
  lemma ExportLayout(b0: seq<byte>, data: Matrix, labels: seq<int>, enc: real -> seq<byte>, dec: seq<byte> -> real)
    requires data != [] && Rect(data) && SoundFloat(enc, dec) && |b0| == ExportSize(data, labels)
    ensures |Floats(Flatten(data), enc)| == 8 * (|data| * |data[0]|) && |Int32s(labels)| == 4 * |labels|
    ensures Splice(Splice(b0, 0, HeaderBytes(HeaderX(data)) + [88, 0] + Floats(Flatten(data), enc)),
                   22 + 8 * (|data| * |data[0]|), HeaderBytes(HeaderY(labels)) + [89, 0] + Int32s(labels))
            == ExportBytes(data, labels, enc)
  {
    ExportFills(data, labels, enc, dec);
    FlattenLength(data);
    FloatsLength(Flatten(data), enc, dec);
    Int32sLength(labels);
    var hx, fx, hy, fy := HeaderBytes(HeaderX(data)), Floats(Flatten(data), enc), HeaderBytes(HeaderY(labels)), Int32s(labels);
    Regroup(hx, [88, 0], fx, hy, [89, 0], fy);
    SpliceHalves(b0, hx + [88, 0] + fx, hy + [89, 0] + fy);
  }

  /** Storing `x` at the start and `y` right after it fills a buffer of their joint length. */
  lemma SpliceHalves(b0: seq<byte>, x: seq<byte>, y: seq<byte>)
    requires |b0| == |x| + |y|
    ensures Splice(Splice(b0, 0, x), |x|, y) == x + y
  {
    SpliceTwice(b0, 0, x, y);
    SpliceWhole(b0, x + y);
  }

  /** The first half of `Export`: header, name and entries of `X` from the start of the buffer. */
  method WriteX(buf: array<byte>, data: Matrix, enc: real -> seq<byte>, ghost dec: seq<byte> -> real) returns (next: nat)
    requires data != [] && Rect(data) && SoundFloat(enc, dec)
    requires 22 + 8 * (|data| * |data[0]|) <= buf.Length
    modifies buf
    ensures next == 22 + 8 * (|data| * |data[0]|) && |Floats(Flatten(data), enc)| == 8 * (|data| * |data[0]|)
    ensures buf[..] == Splice(old(buf[..]), 0, HeaderBytes(HeaderX(data)) + [88, 0] + Floats(Flatten(data), enc))
  {
    ghost var b0 := buf[..];
    ghost var hb := HeaderBytes(HeaderX(data));
    var hdr := new MatrixHeader();
    hdr.typ, hdr.rows, hdr.cols, hdr.imagFlag, hdr.nameLen := TypeDouble, |data|, |data[0]|, 0, 2;
    var pos := hdr.Write(buf, 0);
    pos := SetBytes(buf, pos, [88, 0]);
    SpliceTwice(b0, 0, hb, [88, 0]);
    var flat := FlattenMatrix(data);
    FlattenLength(data);
    next := WriteFloats(buf, pos, flat, enc, dec);
    SpliceTwice(b0, 0, hb + [88, 0], Floats(flat, enc));
  }

  /** The second half of `Export`: header, name and labels of `Y` from `start`. */
  method WriteY(buf: array<byte>, start: nat, labels: seq<int>)
    requires start + 22 + 4 * |labels| <= buf.Length
    modifies buf
    ensures |Int32s(labels)| == 4 * |labels|
    ensures buf[..] == Splice(old(buf[..]), start, HeaderBytes(HeaderY(labels)) + [89, 0] + Int32s(labels))
  {
    ghost var b0 := buf[..];
    ghost var yb := HeaderBytes(HeaderY(labels));
    var hdr := new MatrixHeader();
    hdr.typ, hdr.rows, hdr.cols, hdr.imagFlag, hdr.nameLen := TypeInt32, |labels|, 1, 0, 2;
    var pos := hdr.Write(buf, start);
    pos := SetBytes(buf, pos, [89, 0]);
    SpliceTwice(b0, start, yb, [89, 0]);
    Int32sLength(labels);
    pos := WriteLabels(buf, pos, labels);
    SpliceTwice(b0, start, yb + [89, 0], Int32s(labels));
  }

  /** The `setFloat64` loop of `Export`. */
  method WriteFloats(buf: array<byte>, start: nat, v: Vector, enc: real -> seq<byte>, ghost dec: seq<byte> -> real) returns (next: nat)
    requires SoundFloat(enc, dec) && start + 8 * |v| <= buf.Length
    modifies buf
    ensures next == start + 8 * |v| && |Floats(v, enc)| == 8 * |v|
    ensures buf[..] == Splice(old(buf[..]), start, Floats(v, enc))
  {
    next := start;
    var i := 0;
    while i != |v|
      invariant 0 <= i <= |v| && next == start + 8 * i && |Floats(v[..i], enc)| == 8 * i
      invariant buf[..] == Splice(old(buf[..]), start, Floats(v[..i], enc))
    {
      var x := v[i];
      assert |enc(x)| == 8;
      assert v[..i + 1][..i] == v[..i] && v[..i + 1][i] == x;
      SpliceTwice(old(buf[..]), start, Floats(v[..i], enc), enc(x));
      next := SetBytes(buf, next, enc(x));
      i := i + 1;
    }
    assert v[..|v|] == v;
  }

  /** The `setUint32` loop of `Export`. */
  method WriteLabels(buf: array<byte>, start: nat, l: seq<int>) returns (next: nat)
    requires start + 4 * |l| <= buf.Length
    modifies buf
    ensures next == start + 4 * |l| && |Int32s(l)| == 4 * |l|
    ensures buf[..] == Splice(old(buf[..]), start, Int32s(l))
  {
    next := start;
    var i := 0;
    while i != |l|
      invariant 0 <= i <= |l| && next == start + 4 * i && |Int32s(l[..i])| == 4 * i
      invariant buf[..] == Splice(old(buf[..]), start, Int32s(l[..i]))
    {
      assert l[..i + 1][..i] == l[..i];
      SpliceTwice(old(buf[..]), start, Int32s(l[..i]), Int32Bytes(l[i]));
      next := SetBytes(buf, next, Int32Bytes(l[i]));
      i := i + 1;
    }
    assert l[..|l|] == l;
  }

  /** The `getFloat64` loop of `Import`: `i != n` with `i` counting up, so a negative `n`
      reads on until a read falls outside the buffer. */
  method ReadFloats(b: seq<byte>, start: int, n: int, dec: seq<byte> -> real) returns (r: Result<Vector>)
    ensures n >= 0 ==> (r.Ok? <==> FloatsAt(b, start, n, dec).Some?)
    ensures n >= 0 && r.Ok? ==> r.value == FloatsAt(b, start, n, dec).value
    ensures n < 0 ==> r == Err("RangeError")
    ensures r.Err? ==> r.error == "RangeError"
  {
    var v := [];
    var pos := start;
    var i := 0;
    while i != n
      invariant i >= 0 && (n >= 0 ==> i <= n) && pos == start + 8 * i
      invariant FloatsAt(b, start, i, dec) == Some(v)
      decreases |b| - pos
    {
      if pos < 0 || pos + 8 > |b| {
        return Err("RangeError");
      }
      v := v + [dec(b[pos..pos + 8])];
      pos := pos + 8;
      i := i + 1;
    }
    return Ok(v);
  }

  /** The `getInt32` loop of `Import`, the same way. */
  method ReadLabels(b: seq<byte>, start: int, n: int) returns (r: Result<seq<int>>)
    ensures n >= 0 ==> (r.Ok? <==> Int32sAt(b, start, n).Some?)
    ensures n >= 0 && r.Ok? ==> r.value == Int32sAt(b, start, n).value
    ensures n < 0 ==> r == Err("RangeError")
    ensures r.Err? ==> r.error == "RangeError"
  {
    var l := [];
    var pos := start;
    var i := 0;
    while i != n
      invariant i >= 0 && (n >= 0 ==> i <= n) && pos == start + 4 * i
      invariant Int32sAt(b, start, i) == Some(l)
      decreases |b| - pos
    {
      if pos < 0 || pos + 4 > |b| {
        return Err("RangeError");
      }
      l := l + [Int32Of(b[pos..pos + 4])];
      pos := pos + 4;
      i := i + 1;
    }
    return Ok(l);
  }

  /** The first half of `Import(oBuffer)`: header, name and entries of `X`. */
  method ReadX(b: seq<byte>, dec: seq<byte> -> real) returns (r: Result<(Matrix, int)>)
    requires !Hangs(b)
    ensures r == XAt(b, dec)
  {
    var hdr := new MatrixHeader();
    var pos := hdr.Read(b, 0);
    if pos.Err? {
      return Err(pos.error);
    }
    if hdr.typ != TypeDouble || hdr.imagFlag != 0 {
      return Err("Invalid format");
    }
    var p := pos.value + hdr.nameLen;
    var n := hdr.rows * hdr.cols;
    var flat := ReadFloats(b, p, n, dec);
    if flat.Err? {
      return Err(flat.error);
    }
    FactorSign(hdr.rows, hdr.cols);
    var data := ReshapeToMatrix(flat.value, hdr.rows, if hdr.rows == 0 then 0 else hdr.cols);
    return Ok((data, p + 8 * n));
  }

  /** The second half of `Import(oBuffer)`: header, name and entries of `Y` from `start`. */
  method ReadY(b: seq<byte>, start: int) returns (r: Result<seq<int>>)
    ensures r == YAt(b, start)
  {
    var hdr := new MatrixHeader();
    var pos := hdr.Read(b, start);
    if pos.Err? {
      return Err(pos.error);
    }
    if hdr.typ != TypeInt32 || hdr.cols != 1 || hdr.imagFlag != 0 {
      return Err("Invalid format");
    }
    var ls := ReadLabels(b, pos.value + hdr.nameLen, hdr.rows * hdr.cols);
    if ls.Err? {
      return Err(ls.error);
    }
    return Ok(ls.value);
  }

  /** `Import(oBuffer)`, on a buffer where it stops. */
  method Import(b: seq<byte>, dec: seq<byte> -> real) returns (r: Result<(Matrix, seq<int>)>)
    requires !Hangs(b)
    ensures r == ImportOf(b, dec)
  {
    var x := ReadX(b, dec);
    if x.Err? {
      return Err(x.error);
    }
    var y := ReadY(b, x.value.1);
    if y.Err? {
      return Err(y.error);
    }
    return Ok((x.value.0, y.value));
  }
}
