/**
 * The StereoLithography (STL) formats as both Python helpers read and write them. Binary: an
 * 80-byte header, a little-endian `uint32` facet count, then 50-byte records (12 bytes of normal,
 * 36 bytes of vertices as `float32` words, 2 attribute bytes). ASCII: `facet normal`, `outer loop`,
 * three `vertex` lines, `endloop`, `endfacet` per facet. A `float32` word is decoded by the abstract
 * `word` (`struct.unpack("<f")`); a float is printed by the abstract `fmt` (`str(float)`).
 */
module StlFormat {
  import opened Text

  newtype byte = x: int | 0 <= x < 256

  /** One facet: three normal components and nine vertex coordinates. */
  datatype Facet = Facet(normal: seq<real>, verts: seq<real>)

  predicate WellFormed(f: Facet) {
    |f.normal| == 3 && |f.verts| == 9
  }

  const U32Range: int := 0x1_0000_0000

  /** `struct.unpack("<I", b[off:off + 4])[0]` */
  function U32At(b: seq<byte>, off: int): (n: int)
    requires 0 <= off && off + 4 <= |b|
    ensures 0 <= n < U32Range
  {
    b[off] as int + 0x100 * b[off + 1] as int + 0x1_0000 * b[off + 2] as int + 0x100_0000 * b[off + 3] as int
  }

  /** `struct.pack("<I", n)` */
  function U32Bytes(n: int): (b: seq<byte>)
    requires 0 <= n < U32Range
    ensures |b| == 4
  {
    var q1 := n / 0x100;
    var q2 := q1 / 0x100;
    var q3 := q2 / 0x100;
    [(n % 0x100) as byte, (q1 % 0x100) as byte, (q2 % 0x100) as byte, q3 as byte]
  }

  lemma U32RoundTrip(n: int)
    requires 0 <= n < U32Range
    ensures U32At(U32Bytes(n), 0) == n
  {
    var q1 := n / 0x100;
    var q2 := q1 / 0x100;
    var q3 := q2 / 0x100;
    assert n == n % 0x100 + 0x100 * q1;
    assert q1 == q1 % 0x100 + 0x100 * q2;
    assert q2 == q2 % 0x100 + 0x100 * q3;
    assert q3 < 0x100;
  }

  /** `bytes.lower()`: ASCII upper-case letters only. */
  function LowerByte(b: byte): byte {
    if 65 <= b <= 90 then b + 32 else b
  }

  /** `b"solid"` */
  const SolidBytes: seq<byte> := [115, 111, 108, 105, 100]

  /** The first five bytes (fewer if the data is shorter), lower-cased, are `b"solid"`. */
  predicate StartsWithSolid(b: seq<byte>) {
    |b| >= 5 && forall k :: 0 <= k < 5 ==> LowerByte(b[k]) == SolidBytes[k]
  }

  // ---------------------------------------------------------------------------------------------
  // Binary records

  /** `struct.unpack("<kf", b)`: `k` consecutive `float32` words. */
  function Unpack(b: seq<byte>, k: nat, word: seq<byte> -> real): (r: seq<real>)
    requires |b| == 4 * k
    ensures |r| == k
    ensures forall i :: 0 <= i < k ==> r[i] == word(b[4 * i .. 4 * i + 4])
  {
    seq(k, i requires 0 <= i < k => word(b[4 * i .. 4 * i + 4]))
  }

  /** The record at `off`: `<3f` normal from 12 bytes, `<9f` vertices from the next 36, 2 bytes skipped. */
  function RecordAt(b: seq<byte>, off: int, word: seq<byte> -> real): (f: Facet)
    requires 0 <= off && off + 50 <= |b|
    ensures WellFormed(f)
  {
    Facet(Unpack(b[off .. off + 12], 3, word), Unpack(b[off + 12 .. off + 48], 9, word))
  }

  /** A 50-byte record on its own. */
  function Record(r: seq<byte>, word: seq<byte> -> real): (f: Facet)
    requires |r| == 50
    ensures WellFormed(f)
  {
    RecordAt(r, 0, word)
  }

  lemma SliceOfSlice(b: seq<byte>, off: int, lo: int, hi: int, len: int)
    requires 0 <= off && off + len <= |b| && 0 <= lo <= hi <= len
    ensures b[off .. off + len][lo .. hi] == b[off + lo .. off + hi]
  {
    var s := b[off .. off + len];
    assert forall m :: 0 <= m < hi - lo ==> s[lo .. hi][m] == s[lo + m] == b[off + lo + m];
  }

  /** A record is a function of its own 50 bytes. */
  lemma RecordLocal(b: seq<byte>, off: int, c: seq<byte>, off2: int, word: seq<byte> -> real)
    requires 0 <= off && off + 50 <= |b| && 0 <= off2 && off2 + 50 <= |c|
    requires b[off .. off + 50] == c[off2 .. off2 + 50]
    ensures RecordAt(b, off, word) == RecordAt(c, off2, word)
  {
    SliceOfSlice(b, off, 0, 12, 50);
    SliceOfSlice(c, off2, 0, 12, 50);
    SliceOfSlice(b, off, 12, 48, 50);
    SliceOfSlice(c, off2, 12, 48, 50);
  }

  /** The first `n` records after the 84-byte preamble. */
  function BinaryFacets(b: seq<byte>, n: nat, word: seq<byte> -> real): (fs: seq<Facet>)
    requires 84 + 50 * n <= |b|
    ensures |fs| == n
    ensures forall i :: 0 <= i < n ==> fs[i] == RecordAt(b, 84 + 50 * i, word)
  {
    seq(n, i requires 0 <= i < n => RecordAt(b, 84 + 50 * i, word))
  }

  /** A record depends only on its own 50 bytes, so bytes after the last record change nothing. */
  lemma BinaryFacetsIgnoreTrailing(b: seq<byte>, extra: seq<byte>, n: nat, word: seq<byte> -> real)
    requires 84 + 50 * n <= |b|
    ensures BinaryFacets(b + extra, n, word) == BinaryFacets(b, n, word)
  {
    forall i | 0 <= i < n
      ensures RecordAt(b + extra, 84 + 50 * i, word) == RecordAt(b, 84 + 50 * i, word)
    {
      var off := 84 + 50 * i;
      assert off + 50 <= 84 + 50 * n;
      assert (b + extra)[off .. off + 50] == b[off .. off + 50];
      RecordLocal(b + extra, off, b, off, word);
    }
  }

  /** Concatenated records. */
  function Flatten(records: seq<seq<byte>>): seq<byte>
    decreases |records|
  {
    if records == [] then [] else Flatten(records[..|records| - 1]) + records[|records| - 1]
  }

  lemma {:induction false} FlattenLayout(records: seq<seq<byte>>, i: int)
    requires forall r :: 0 <= r < |records| ==> |records[r]| == 50
    requires 0 <= i < |records|
    ensures |Flatten(records)| == 50 * |records|
    ensures Flatten(records)[50 * i .. 50 * i + 50] == records[i]
    decreases |records|
  {
    var init := records[..|records| - 1];
    FlattenLength(init);
    if i < |records| - 1 {
      FlattenLayout(init, i);
    }
  }

  lemma {:induction false} FlattenLength(records: seq<seq<byte>>)
    requires forall r :: 0 <= r < |records| ==> |records[r]| == 50
    ensures |Flatten(records)| == 50 * |records|
    decreases |records|
  {
    if records != [] {
      FlattenLength(records[..|records| - 1]);
    }
  }

  /** A binary file: header, count, records. */
  function BinaryImage(header: seq<byte>, records: seq<seq<byte>>): seq<byte>
    requires |header| == 80 && |records| < U32Range
  {
    header + U32Bytes(|records|) + Flatten(records)
  }

  /** The binary layout read back: the count and every record in order. */
  lemma BinaryImageLayout(header: seq<byte>, records: seq<seq<byte>>, word: seq<byte> -> real)
    requires |header| == 80 && |records| < U32Range
    requires forall r :: 0 <= r < |records| ==> |records[r]| == 50
    ensures var b := BinaryImage(header, records);
      && |b| == 84 + 50 * |records|
      && U32At(b, 80) == |records|
      && BinaryFacets(b, |records|, word) == seq(|records|, i requires 0 <= i < |records| => Record(records[i], word))
  {
    var b := BinaryImage(header, records);
    FlattenLength(records);
    assert b[80..84] == U32Bytes(|records|);
    U32RoundTrip(|records|);
    forall i | 0 <= i < |records|
      ensures RecordAt(b, 84 + 50 * i, word) == Record(records[i], word)
    {
      FlattenLayout(records, i);
      var off := 84 + 50 * i;
      assert b[off .. off + 50] == Flatten(records)[50 * i .. 50 * i + 50];
      assert records[i][0 .. 50] == records[i];
      RecordLocal(b, off, records[i], 0, word);
    }
  }

  // ---------------------------------------------------------------------------------------------
  // Text and bytes

  predicate IsAscii(s: string) {
    forall k :: 0 <= k < |s| ==> s[k] as int < 128
  }

  /** Text written to a file: ASCII characters are single bytes. */
  function AsciiBytes(s: string): (b: seq<byte>)
    requires IsAscii(s)
    ensures |b| == |s|
  {
    seq(|s|, k requires 0 <= k < |s| => s[k] as int as byte)
  }

  /** Whether a byte has the high bit set, so it is not an ASCII character by itself. */
  predicate HighByte(b: byte) {
    b >= 128
  }

  /** `data.decode("utf-8", errors="ignore")`, approximated by keeping the ASCII bytes. */
  function Decode(b: seq<byte>): (s: string)
    ensures IsAscii(s)
    decreases |b|
  {
    if b == [] then ""
    else Decode(b[..|b| - 1]) + (if HighByte(b[|b| - 1]) then "" else [b[|b| - 1] as int as char])
  }

  lemma {:induction false} DecodeAscii(s: string)
    requires IsAscii(s)
    ensures Decode(AsciiBytes(s)) == s
    decreases |s|
  {
    if s != [] {
      var init := s[..|s| - 1];
      assert AsciiBytes(s)[..|s| - 1] == AsciiBytes(init);
      DecodeAscii(init);
    }
  }

  /** `text.replace("\r", "")` */
  function RemoveCR(s: string): (r: string)
    ensures |r| <= |s|
    decreases |s|
  {
    if s == [] then ""
    else RemoveCR(s[..|s| - 1]) + (if s[|s| - 1] == '\r' then "" else [s[|s| - 1]])
  }

  lemma {:induction false} RemoveCRNoop(s: string)
    requires forall k :: 0 <= k < |s| ==> s[k] != '\r'
    ensures RemoveCR(s) == s
    decreases |s|
  {
    if s != [] {
      RemoveCRNoop(s[..|s| - 1]);
    }
  }

  // ---------------------------------------------------------------------------------------------
  // ASCII writing

  /** The line that opens a facet, with its normal's three printed components. */
  function NormalLine(x: string, y: string, z: string): string {
    "  facet normal " + x + " " + y + " " + z
  }

  /** One vertex line, with the vertex's three printed coordinates. */
  function VertexLine(x: string, y: string, z: string): string {
    "      vertex " + x + " " + y + " " + z
  }

  const OuterLoopLine: string := "    outer loop"
  const EndLoopLine: string := "    endloop"
  const EndFacetLine: string := "  endfacet"

  /** The seven lines of one facet. */
  function FacetLines(f: Facet, fmt: real -> string): seq<string>
    requires WellFormed(f)
  {
    var n, v := f.normal, f.verts;
    [ NormalLine(fmt(n[0]), fmt(n[1]), fmt(n[2])),
      OuterLoopLine,
      VertexLine(fmt(v[0]), fmt(v[1]), fmt(v[2])),
      VertexLine(fmt(v[3]), fmt(v[4]), fmt(v[5])),
      VertexLine(fmt(v[6]), fmt(v[7]), fmt(v[8])),
      EndLoopLine,
      EndFacetLine ]
  }

  function AllFacetLines(fs: seq<Facet>, fmt: real -> string): (r: seq<string>)
    requires forall i :: 0 <= i < |fs| ==> WellFormed(fs[i])
    ensures |r| == 7 * |fs|
    decreases |fs|
  {
    if fs == [] then [] else AllFacetLines(fs[..|fs| - 1], fmt) + FacetLines(fs[|fs| - 1], fmt)
  }

  /** A whole ASCII file: `solid <name>`, seven lines per facet in order, `endsolid <name>`. */
  function AsciiStlLines(name: string, fs: seq<Facet>, fmt: real -> string): (r: seq<string>)
    requires forall i :: 0 <= i < |fs| ==> WellFormed(fs[i])
    ensures |r| == 7 * |fs| + 2
    ensures r[0] == "solid " + name && r[|r| - 1] == "endsolid " + name
  {
    ["solid " + name] + AllFacetLines(fs, fmt) + ["endsolid " + name]
  }

  lemma {:induction false} AllFacetLinesAt(fs: seq<Facet>, fmt: real -> string, i: int)
    requires forall k :: 0 <= k < |fs| ==> WellFormed(fs[k])
    requires 0 <= i < |fs|
    ensures AllFacetLines(fs, fmt)[7 * i .. 7 * i + 7] == FacetLines(fs[i], fmt)
    decreases |fs|
  {
    if i < |fs| - 1 {
      AllFacetLinesAt(fs[..|fs| - 1], fmt, i);
      SliceOfFront(AllFacetLines(fs[..|fs| - 1], fmt), FacetLines(fs[|fs| - 1], fmt), 7 * i, 7 * i + 7);
    }
  }

  /** Facet `i` occupies lines 1 + 7i .. 7 + 7i of the file. */
  lemma FacetPlacement(name: string, fs: seq<Facet>, fmt: real -> string, i: int)
    requires forall k :: 0 <= k < |fs| ==> WellFormed(fs[k])
    requires 0 <= i < |fs|
    ensures AsciiStlLines(name, fs, fmt)[1 + 7 * i .. 8 + 7 * i] == FacetLines(fs[i], fmt)
  {
    AllFacetLinesAt(fs, fmt, i);
    SliceOfMiddle(["solid " + name], AllFacetLines(fs, fmt), ["endsolid " + name], 7 * i, 7 * i + 7);
  }
}
