/**
 * `helper_asciistl.py`: binary STL files are rewritten next to themselves as `<stem>_ascii.stl`;
 * files that already open with "solid" are left alone. The file system is a map from path to
 * bytes; reading goes through a cursor that `read(k)` advances, as Python's file object does.
 */
module StlConvert {
  import opened Wrappers
  import opened Machine
  import opened Text
  import opened Paths
  import opened StlFormat
  import opened StlRead
  import opened StlRoundTrip

  // ---------------------------------------------------------------------------------------------
  // Detection and names

  /** The first `k` bytes, or all of them when there are fewer: what `f.read(k)` returns on a fresh file. */
  function Prefix(b: seq<byte>, k: nat): (p: seq<byte>)
    ensures |p| == Min(k, |b|) && p == b[..|p|]
  {
    b[..Min(k, |b|)]
  }

  function LowerBytes(b: seq<byte>): (r: seq<byte>)
    ensures |r| == |b| && forall k :: 0 <= k < |b| ==> r[k] == LowerByte(b[k])
  {
    seq(|b|, k requires 0 <= k < |b| => LowerByte(b[k]))
  }

  /**
   * `is_ascii_stl`: the file's first five bytes, lower-cased, are `b"solid"`; a path that cannot be
   * opened is not ASCII. This is the same test the scaling reader applies to a header.
   */
  function IsAsciiStl(files: map<string, seq<byte>>, path: string): (r: bool)
    ensures r <==> path in files && StartsWithSolid(files[path])
  {
    if path !in files then false
    else
      var p := LowerBytes(Prefix(files[path], 5));
      assert |p| == 5 ==> (p == SolidBytes <==> forall k :: 0 <= k < 5 ==> p[k] == SolidBytes[k]);
      p == SolidBytes
  }

  const ConvertedName: string := "converted"
  const AsciiSuffix: string := "_ascii.stl"

  /** `f"{os.path.splitext(src)[0]}_ascii.stl"` */
  function DstName(src: string): string {
    StripExtension(src) + AsciiSuffix
  }

  /** The output never overwrites its own source. */
  lemma DstDiffers(src: string)
    ensures DstName(src) != src
  {
    var root, ext := StripExtension(src), Extension(src);
    assert src[|root|..] == ext;
    assert DstName(src)[|root|..] == AsciiSuffix;
    assert AsciiSuffix[0] == '_';
  }

  /** A stem followed by an extension: the destination replaces the extension by the suffix. */
  lemma DstOfExtension(stem: string, ext: string)
    requires SimpleExtension(ext) && NamedStem(stem)
    ensures DstName(stem + ext) == stem + AsciiSuffix
  {
    StripAppendedExtension(stem, ext);
  }

  lemma StlIsExtension()
    ensures SimpleExtension(".stl")
  {
    var ext := ".stl";
    forall k | 0 < k < |ext|
      ensures ext[k] != '.' && ext[k] != '/'
    {
      assert k == 1 || k == 2 || k == 3;
    }
  }

  /** `<stem>.stl` becomes `<stem>_ascii.stl`. */
  lemma DstOfStl(stem: string)
    requires NamedStem(stem)
    ensures DstName(stem + ".stl") == stem + AsciiSuffix
  {
    StlIsExtension();
    DstOfExtension(stem, ".stl");
  }

  // ---------------------------------------------------------------------------------------------
  // Reading the binary file

  /** An open source file: its bytes and how far the reads have got. */
  class SourceFile {
    const data: seq<byte>
    var pos: nat

    predicate Valid()
      reads this
    {
      pos <= |data|
    }

    constructor (data: seq<byte>)
      ensures Valid() && this.data == data && pos == 0
    {
      this.data := data;
      pos := 0;
    }

    /** `f.read(k)`: up to `k` bytes from the current position; fewer at the end of the file. */
    method Read(k: nat) returns (chunk: seq<byte>)
      requires Valid()
      modifies this
      ensures Valid()
      ensures chunk == data[old(pos) .. Min(old(pos) + k, |data|)]
      ensures pos == old(pos) + |chunk|
    {
      var end := Min(pos + k, |data|);
      chunk := data[pos .. end];
      pos := end;
    }
  }

  datatype ConvertError =
    | CannotOpen                          // `open(src, "rb")` fails: no such file
    | CannotReadCount                     // fewer than 4 bytes after the 80-byte header
    | Truncated(index: nat, total: nat)   // a short read at triangle `index` of `total`

  /**
   * What `convert_binary_to_ascii` reads from a source's bytes: the triangles it will write, or the
   * error it raises before opening the output.
   */
  function ConvertSpec(data: seq<byte>, word: seq<byte> -> real): (r: Result<seq<Facet>, ConvertError>)
    ensures r == Err(CannotReadCount) <==> |data| < 84
    ensures r.Ok? ==> 84 + 50 * U32At(data, 80) <= |data| && r.value == BinaryFacets(data, U32At(data, 80), word)
    ensures r.Ok? ==> AllWellFormed(r.value)
    ensures r.Err? && r.error.Truncated? ==>
      |data| >= 84 && r.error.total == U32At(data, 80) && r.error.index < r.error.total &&
      84 + 50 * r.error.index <= |data| < 84 + 50 * (r.error.index + 1)
    ensures r != Err(CannotOpen)
  {
    if |data| < 84 then Err(CannotReadCount)
    else
      var n := U32At(data, 80);
      if |data| < 84 + 50 * n then
        var i := (|data| - 84) / 50;
        DivBounds(|data| - 84, 50);
        MulCancel(i, n - 1, 50);
        Err(Truncated(i, n))
      else
        Ok(BinaryFacets(data, n, word))
  }

  /** The header and the count: `f.read(80)`, then `f.read(4)` must give four bytes. */
  method ReadCount(src: SourceFile) returns (count: Option<nat>)
    requires src.Valid() && src.pos == 0
    modifies src
    ensures src.Valid()
    ensures count == None <==> |src.data| < 84
    ensures count.Some? ==> src.pos == 84 && count.value == U32At(src.data, 80)
  {
    var header := src.Read(80);
    var countBytes := src.Read(4);
    if |countBytes| != 4 {
      return None;
    }
    assert countBytes == src.data[80 .. 84];
    count := Some(U32At(countBytes, 0));
  }

  /** The triangle loop: 12, 36 and 2 bytes per triangle, stopping at the first short read. */
  method ReadTriangles(src: SourceFile, word: seq<byte> -> real) returns (r: Result<seq<Facet>, ConvertError>)
    requires src.Valid() && src.pos == 0
    modifies src
    ensures r == ConvertSpec(src.data, word)
  {
    var count := ReadCount(src);
    if count == None {
      return Err(CannotReadCount);
    }
    var n := count.value;
    var tris: seq<Facet> := [];
    var i := 0;
    while i < n
      invariant src.Valid() && 0 <= i <= n
      invariant src.pos == 84 + 50 * i && 84 + 50 * i <= |src.data|
      invariant tris == BinaryFacets(src.data, i, word)
      decreases n - i
    {
      var p := src.pos;
      var normalBytes := src.Read(12);
      var vertsBytes := src.Read(36);
      var attrBytes := src.Read(2);
      if |normalBytes| != 12 || |vertsBytes| != 36 || |attrBytes| != 2 {
        assert |src.data| < p + 50;
        return Err(Truncated(i, n));
      }
      var facet := Facet(Unpack(normalBytes, 3, word), Unpack(vertsBytes, 9, word));
      assert facet == RecordAt(src.data, p, word);
      tris := tris + [facet];
      i := i + 1;
      assert tris == BinaryFacets(src.data, i, word);
    }
    r := Ok(tris);
  }

  // ---------------------------------------------------------------------------------------------
  // Writing the ASCII file

  /** The text of one triangle, line by line with the three vertex lines written out. */
  method WriteTriangle(f: Facet, fmt: real -> string) returns (chunk: string)
    requires WellFormed(f)
    ensures chunk == Unlines(FacetLines(f, fmt))
  {
    var n, v := f.normal, f.verts;
    ghost var lines: seq<string> := [];
    chunk := "";
    var line := NormalLine(fmt(n[0]), fmt(n[1]), fmt(n[2]));
    UnlinesSnoc(lines, line);
    chunk, lines := chunk + line + "\n", lines + [line];
    UnlinesSnoc(lines, OuterLoopLine);
    chunk, lines := chunk + OuterLoopLine + "\n", lines + [OuterLoopLine];
    line := VertexLine(fmt(v[0]), fmt(v[1]), fmt(v[2]));
    UnlinesSnoc(lines, line);
    chunk, lines := chunk + line + "\n", lines + [line];
    line := VertexLine(fmt(v[3]), fmt(v[4]), fmt(v[5]));
    UnlinesSnoc(lines, line);
    chunk, lines := chunk + line + "\n", lines + [line];
    line := VertexLine(fmt(v[6]), fmt(v[7]), fmt(v[8]));
    UnlinesSnoc(lines, line);
    chunk, lines := chunk + line + "\n", lines + [line];
    UnlinesSnoc(lines, EndLoopLine);
    chunk, lines := chunk + EndLoopLine + "\n", lines + [EndLoopLine];
    UnlinesSnoc(lines, EndFacetLine);
    chunk, lines := chunk + EndFacetLine + "\n", lines + [EndFacetLine];
    assert lines == FacetLines(f, fmt);
  }

  /** The triangle loop of `convert_binary_to_ascii`'s writer: every triangle's lines, in order. */
  method WriteTriangles(tris: seq<Facet>, fmt: real -> string) returns (text: string)
    requires AllWellFormed(tris)
    ensures text == Unlines(AllFacetLines(tris, fmt))
  {
    text := "";
    ghost var lines: seq<string> := [];
    var k := 0;
    while k < |tris|
      invariant 0 <= k <= |tris|
      invariant lines == AllFacetLines(tris[..k], fmt)
      invariant text == Unlines(lines)
      decreases |tris| - k
    {
      var chunk := WriteTriangle(tris[k], fmt);
      ghost var more := FacetLines(tris[k], fmt);
      UnlinesAppend(lines, more);
      AllFacetLinesSnoc(tris, k, fmt);
      text, lines := text + chunk, lines + more;
      k := k + 1;
    }
    assert tris[..k] == tris;
  }

  /** The text `convert_binary_to_ascii` writes: "solid converted", the triangles in order, "endsolid converted". */
  method WriteConverted(tris: seq<Facet>, fmt: real -> string) returns (text: string)
    requires AllWellFormed(tris)
    ensures text == Unlines(AsciiStlLines(ConvertedName, tris, fmt))
  {
    var body := WriteTriangles(tris, fmt);
    text := "solid " + ConvertedName + "\n" + body + "endsolid " + ConvertedName + "\n";
    SolidText(ConvertedName, tris, fmt);
  }

  // ---------------------------------------------------------------------------------------------
  // One conversion and the main loop, on a map from path to bytes

  /** The bytes a successful conversion leaves at the destination. */
  function ConvertedBytes(tris: seq<Facet>, fmt: real -> string): (b: seq<byte>)
    requires AllWellFormed(tris) && PlainFormat(fmt)
    ensures Decode(b) == Unlines(AsciiStlLines(ConvertedName, tris, fmt))
  {
    WrittenBytes(ConvertedName, tris, fmt)
  }

  /** `convert_binary_to_ascii(src, dst)`: the new files and the triangle count, or the error raised. */
  function ConvertFiles(files: map<string, seq<byte>>, src: string, dst: string, word: seq<byte> -> real, fmt: real -> string): (r: (map<string, seq<byte>>, Result<nat, ConvertError>))
    requires PlainFormat(fmt)
    ensures r.1.Err? ==> r.0 == files
    ensures r.1.Ok? ==> src in files && r.0.Keys == files.Keys + {dst}
    ensures forall p :: p in files && p != dst ==> p in r.0 && r.0[p] == files[p]
  {
    if src !in files then (files, Err(CannotOpen))
    else
      match ConvertSpec(files[src], word)
      case Err(e) => (files, Err(e))
      case Ok(tris) => (files[dst := ConvertedBytes(tris, fmt)], Ok(|tris|))
  }

  /** What `main` reports for one path. */
  datatype Outcome =
    | Skipped                             // "[skip] ... (not found)"
    | AlreadyAscii(existing: bool)        // "[ok] ... already ASCII", with or without an existing output
    | Converted(dst: string, count: nat)  // "[done] src -> dst"
    | Failed(error: ConvertError)         // "[fail] src: error"

  /** The body of `main`'s loop. */
  function Step(files: map<string, seq<byte>>, src: string, word: seq<byte> -> real, fmt: real -> string): (r: (map<string, seq<byte>>, Outcome))
    requires PlainFormat(fmt)
    ensures r.1 == Skipped <==> src !in files
    ensures r.1.AlreadyAscii? <==> IsAsciiStl(files, src)
    ensures r.1.AlreadyAscii? ==> r.1.existing == (DstName(src) in files)
    ensures !r.1.Converted? ==> r.0 == files
  {
    if src !in files then (files, Skipped)
    else
      var dst := DstName(src);
      if IsAsciiStl(files, src) then (files, AlreadyAscii(dst in files))
      else
        var (next, res) := ConvertFiles(files, src, dst, word, fmt);
        (next, if res.Ok? then Converted(dst, res.value) else Failed(res.error))
  }

  /** `main(paths)`: the files after every path in turn, and the outcome of each. */
  function Run(files: map<string, seq<byte>>, paths: seq<string>, word: seq<byte> -> real, fmt: real -> string): (r: (map<string, seq<byte>>, seq<Outcome>))
    requires PlainFormat(fmt)
    ensures |r.1| == |paths|
    decreases |paths|
  {
    if paths == [] then (files, [])
    else
      var (before, outs) := Run(files, paths[..|paths| - 1], word, fmt);
      var (after, o) := Step(before, paths[|paths| - 1], word, fmt);
      (after, outs + [o])
  }

  // ---------------------------------------------------------------------------------------------
  // Properties

  /** Bytes after the last triangle are never read. */
  lemma ConvertIgnoresTrailing(data: seq<byte>, extra: seq<byte>, word: seq<byte> -> real)
    requires ConvertSpec(data, word).Ok?
    ensures ConvertSpec(data + extra, word) == ConvertSpec(data, word)
  {
    assert (data + extra)[80 .. 84] == data[80 .. 84];
    assert U32At(data + extra, 80) == U32At(data, 80);
    BinaryFacetsIgnoreTrailing(data, extra, U32At(data, 80), word);
  }

  /** On a file of exactly the binary size the converter reads what the scaling reader reads. */
  lemma ConvertAgreesWithReader(data: seq<byte>, toFloat: string -> Option<real>, word: seq<byte> -> real)
    requires IsBinaryLayout(data)
    ensures ConvertSpec(data, word).Ok? && ReadStlSpec(data, toFloat, word) == Ok(ConvertSpec(data, word).value)
  {
  }

  /** The converter reads a well-formed binary image as its records, whatever the header says. */
  lemma ConvertBinaryImage(header: seq<byte>, records: seq<seq<byte>>, word: seq<byte> -> real)
    requires |header| == 80 && |records| < U32Range
    requires forall r :: 0 <= r < |records| ==> |records[r]| == 50
    ensures ConvertSpec(BinaryImage(header, records), word) == Ok(seq(|records|, i requires 0 <= i < |records| => Record(records[i], word)))
  {
    BinaryImageLayout(header, records, word);
  }

  /** A step writes at most the destination of its own path; every other file keeps its bytes. */
  lemma StepTouchesOnlyDst(files: map<string, seq<byte>>, src: string, word: seq<byte> -> real, fmt: real -> string)
    requires PlainFormat(fmt)
    ensures Step(files, src, word, fmt).0.Keys <= files.Keys + {DstName(src)}
    ensures forall p :: p in files && p != DstName(src) ==> p in Step(files, src, word, fmt).0 && Step(files, src, word, fmt).0[p] == files[p]
  {
  }

  /** The source itself is never modified. */
  lemma StepKeepsSource(files: map<string, seq<byte>>, src: string, word: seq<byte> -> real, fmt: real -> string)
    requires PlainFormat(fmt) && src in files
    ensures src in Step(files, src, word, fmt).0 && Step(files, src, word, fmt).0[src] == files[src]
  {
    DstDiffers(src);
    StepTouchesOnlyDst(files, src, word, fmt);
  }

  /** A truncated binary source fails and leaves every file as it was, the destination included. */
  lemma TruncatedWritesNothing(files: map<string, seq<byte>>, src: string, word: seq<byte> -> real, fmt: real -> string)
    requires PlainFormat(fmt) && src in files && !IsAsciiStl(files, src)
    requires 84 <= |files[src]| < 84 + 50 * U32At(files[src], 80)
    ensures Step(files, src, word, fmt).0 == files
    ensures Step(files, src, word, fmt).1.Failed? && Step(files, src, word, fmt).1.error.Truncated?
  {
  }

  /**
   * A binary source is converted to its own destination, holding exactly its triangles in the
   * reader's format.
   */
  lemma StepConverts(files: map<string, seq<byte>>, src: string, word: seq<byte> -> real, fmt: real -> string)
    requires PlainFormat(fmt) && src in files && !IsAsciiStl(files, src)
    requires ConvertSpec(files[src], word).Ok?
    ensures var tris := ConvertSpec(files[src], word).value;
      Step(files, src, word, fmt) == (files[DstName(src) := ConvertedBytes(tris, fmt)], Converted(DstName(src), |tris|))
  {
  }

  /** Running a path a second time changes nothing and reports the same outcome. */
  lemma StepIdempotent(files: map<string, seq<byte>>, src: string, word: seq<byte> -> real, fmt: real -> string)
    requires PlainFormat(fmt)
    ensures Step(Step(files, src, word, fmt).0, src, word, fmt) == Step(files, src, word, fmt)
  {
    var (after, o) := Step(files, src, word, fmt);
    if o.Converted? {
      StepKeepsSource(files, src, word, fmt);
      DstDiffers(src);
      var tris := ConvertSpec(files[src], word).value;
      assert after == files[DstName(src) := ConvertedBytes(tris, fmt)];
      assert !IsAsciiStl(after, src);
      assert after[DstName(src) := ConvertedBytes(tris, fmt)] == after;
    }
  }

  /**
   * What a conversion of at least one triangle writes opens with "solid", so a later run leaves it
   * alone, and the scaling reader reads exactly the source's triangles back from it.
   */
  lemma ConvertedReadsBack(files: map<string, seq<byte>>, src: string, word: seq<byte> -> real, fmt: real -> string, toFloat: string -> Option<real>)
    requires PlainFormat(fmt) && WordsPrint(word, fmt, toFloat)
    requires Step(files, src, word, fmt).1.Converted? && Step(files, src, word, fmt).1.count > 0
    ensures var after := Step(files, src, word, fmt).0;
      DstName(src) in after && IsAsciiStl(after, DstName(src)) &&
      ReadStlSpec(after[DstName(src)], toFloat, word) == Ok(ConvertSpec(files[src], word).value)
  {
    var tris := ConvertSpec(files[src], word).value;
    ConvertedPrint(files[src], word, fmt, toFloat);
    KeywordIsName();
    AsciiRoundTrip(ConvertedName, tris, fmt, toFloat, word);
  }

  /**
   * A source with no triangles (exactly the 84-byte header and count) converts to "solid
   * converted" and "endsolid converted" only: 35 bytes, which `read_stl` rejects as too small.
   */
  lemma EmptyConversionTooSmall(files: map<string, seq<byte>>, src: string, word: seq<byte> -> real, fmt: real -> string, toFloat: string -> Option<real>)
    requires PlainFormat(fmt)
    requires Step(files, src, word, fmt).1.Converted? && Step(files, src, word, fmt).1.count == 0
    ensures var after := Step(files, src, word, fmt).0;
      DstName(src) in after && |after[DstName(src)]| == 35 &&
      ReadStlSpec(after[DstName(src)], toFloat, word) == Err(TooSmall)
  {
    var tris := ConvertSpec(files[src], word).value;
    assert tris == [];
    KeywordIsName();
    EmptyWrittenNotReadable(ConvertedName, fmt, toFloat, word);
  }

  /**
   * Every `float32` word, widened to a double, prints as one token that parses back to the same
   * value, as Python's `repr` of a double does. There are finitely many such words.
   */
  ghost predicate WordsPrint(word: seq<byte> -> real, fmt: real -> string, toFloat: string -> Option<real>) {
    forall b: seq<byte> :: |b| == 4 ==> PrintedToken(fmt, toFloat, word(b))
  }

  /** The triangles of a converted file print and parse back. */
  lemma ConvertedPrint(data: seq<byte>, word: seq<byte> -> real, fmt: real -> string, toFloat: string -> Option<real>)
    requires ConvertSpec(data, word).Ok? && WordsPrint(word, fmt, toFloat)
    ensures AllPrint(ConvertSpec(data, word).value, fmt, toFloat)
  {
    var tris := ConvertSpec(data, word).value;
    forall k | 0 <= k < |tris|
      ensures FacetPrints(tris[k], fmt, toFloat)
    {
      RecordPrints(data, 84 + 50 * k, word, fmt, toFloat);
    }
  }

  lemma WordPrints(w: seq<byte>, word: seq<byte> -> real, fmt: real -> string, toFloat: string -> Option<real>)
    requires |w| == 4 && WordsPrint(word, fmt, toFloat)
    ensures PrintedToken(fmt, toFloat, word(w))
  {
  }

  /** A binary record's components are words, so they print and parse back. */
  lemma RecordPrints(b: seq<byte>, off: int, word: seq<byte> -> real, fmt: real -> string, toFloat: string -> Option<real>)
    requires 0 <= off && off + 50 <= |b| && WordsPrint(word, fmt, toFloat)
    ensures FacetPrints(RecordAt(b, off, word), fmt, toFloat)
  {
    var f := RecordAt(b, off, word);
    var nb, vb := b[off .. off + 12], b[off + 12 .. off + 48];
    forall i | 0 <= i < 3
      ensures PrintedToken(fmt, toFloat, f.normal[i])
    {
      var w := nb[4 * i .. 4 * i + 4];
      assert |w| == 4 && f.normal[i] == word(w);
      WordPrints(w, word, fmt, toFloat);
    }
    forall i | 0 <= i < 9
      ensures PrintedToken(fmt, toFloat, f.verts[i])
    {
      var w := vb[4 * i .. 4 * i + 4];
      assert |w| == 4 && f.verts[i] == word(w);
      WordPrints(w, word, fmt, toFloat);
    }
  }

  lemma KeywordIsName()
    ensures IsWord(ConvertedName) && Plain(ConvertedName) && Lower(ConvertedName) != "facet"
  {
    assert Lower(ConvertedName)[0] == 'c';
  }

  /** `p` is not the destination of any of `paths`. */
  predicate NoDstOf(p: string, paths: seq<string>) {
    forall i :: 0 <= i < |paths| ==> DstName(paths[i]) != p
  }

  /** A whole run changes nothing but the destinations of the paths it was given. */
  lemma {:induction false} RunTouchesOnlyDsts(files: map<string, seq<byte>>, paths: seq<string>, word: seq<byte> -> real, fmt: real -> string, p: string)
    requires PlainFormat(fmt) && p in files && NoDstOf(p, paths)
    ensures p in Run(files, paths, word, fmt).0 && Run(files, paths, word, fmt).0[p] == files[p]
    decreases |paths|
  {
    if paths != [] {
      var init := paths[..|paths| - 1];
      assert NoDstOf(p, init);
      RunTouchesOnlyDsts(files, init, word, fmt, p);
      StepTouchesOnlyDst(Run(files, init, word, fmt).0, paths[|paths| - 1], word, fmt);
    }
  }

  /** The directory the helper works on. */
  class Folder {
    var files: map<string, seq<byte>>

    constructor (files: map<string, seq<byte>>)
      ensures this.files == files
    {
      this.files := files;
    }

    /** `convert_binary_to_ascii(src, dst)`: every triangle is read before `dst` is opened. */
    method Convert(src: string, dst: string, word: seq<byte> -> real, fmt: real -> string) returns (r: Result<nat, ConvertError>)
      requires PlainFormat(fmt)
      modifies this
      ensures (files, r) == ConvertFiles(old(files), src, dst, word, fmt)
    {
      if src !in files {
        return Err(CannotOpen);
      }
      var f := new SourceFile(files[src]);
      var tris := ReadTriangles(f, word);
      if tris.Err? {
        return Err(tris.error);
      }
      var text := WriteConverted(tris.value, fmt);
      DocumentPlain(ConvertedName, tris.value, fmt);
      files := files[dst := AsciiBytes(text)];
      r := Ok(|tris.value|);
    }

    /** The body of `main`'s loop for one path. */
    method Process(src: string, word: seq<byte> -> real, fmt: real -> string) returns (o: Outcome)
      requires PlainFormat(fmt)
      modifies this
      ensures (files, o) == Step(old(files), src, word, fmt)
    {
      if src !in files {
        return Skipped;
      }
      var dst := DstName(src);
      if IsAsciiStl(files, src) {
        return AlreadyAscii(dst in files);
      }
      var res := Convert(src, dst, word, fmt);
      o := if res.Ok? then Converted(dst, res.value) else Failed(res.error);
    }

    /** `main(paths)` */
    method ProcessAll(paths: seq<string>, word: seq<byte> -> real, fmt: real -> string) returns (outcomes: seq<Outcome>)
      requires PlainFormat(fmt)
      modifies this
      ensures (files, outcomes) == Run(old(files), paths, word, fmt)
    {
      ghost var start := files;
      outcomes := [];
      var k := 0;
      while k < |paths|
        invariant 0 <= k <= |paths|
        invariant (files, outcomes) == Run(start, paths[..k], word, fmt)
        decreases |paths| - k
      {
        var o := Process(paths[k], word, fmt);
        assert paths[..k + 1][..k] == paths[..k];
        outcomes := outcomes + [o];
        k := k + 1;
      }
      assert paths[..k] == paths;
    }
  }
}
