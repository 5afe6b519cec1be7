/**
 * The STL reader and ASCII writer of the mesh-scaling helper (`helper_scalestl.py`): format
 * detection, the binary record loop, the ASCII token scan, the `solid scaled` writer, the unit
 * table and the output naming.
 */
module StlRead {
  import opened Wrappers
  import opened Text
  import opened Paths
  import opened StlFormat

  /** Why `read_stl` raises. */
  datatype ReadError =
    | TooSmall              // "STL file too small"
    | BinaryTruncated       // "Binary STL truncated"
    | BadFloat(token: string) // `float(token)` raised
    | NoTriangles           // "Could not parse STL (binary or ASCII)"

  /** The tokens of the ASCII fallback: decoded text, carriage returns removed, split on whitespace. */
  function Tokens(data: seq<byte>): seq<string> {
    Words(RemoveCR(Decode(data)))
  }

  /** `token.lower() == kw` */
  predicate IsKeyword(token: string, kw: string) {
    Lower(token) == kw
  }

  /** Length, count and shape say binary: `len == 84 + 50 n` and the header does not open with "solid". */
  predicate IsBinaryLayout(data: seq<byte>) {
    |data| >= 84 && |data| == 84 + 50 * U32At(data, 80) && !StartsWithSolid(data)
  }

  // ---------------------------------------------------------------------------------------------
  // The ASCII scan as functions

  /** `float` of the three tokens from `k`, left to right; the first that does not convert is the error. */
  function Floats3(tokens: seq<string>, k: int, toFloat: string -> Option<real>): (r: Result<seq<real>, ReadError>)
    requires 0 <= k && k + 3 <= |tokens|
    ensures r.Ok? <==> toFloat(tokens[k]).Some? && toFloat(tokens[k + 1]).Some? && toFloat(tokens[k + 2]).Some?
    ensures r.Ok? ==> r.value == [toFloat(tokens[k]).value, toFloat(tokens[k + 1]).value, toFloat(tokens[k + 2]).value]
    ensures r.Err? ==> r.error == BadFloat(tokens[if toFloat(tokens[k]).None? then k else if toFloat(tokens[k + 1]).None? then k + 1 else k + 2])
  {
    match toFloat(tokens[k])
    case None => Err(BadFloat(tokens[k]))
    case Some(a) =>
      match toFloat(tokens[k + 1])
      case None => Err(BadFloat(tokens[k + 1]))
      case Some(b) =>
        match toFloat(tokens[k + 2])
        case None => Err(BadFloat(tokens[k + 2]))
        case Some(c) => Ok([a, b, c])
  }

  /** Where the vertex search stopped, how many vertices it found and their coordinates. */
  datatype Found = Found(next: nat, count: nat, verts: seq<real>)

  /**
   * The inner loop: from token `j`, collect up to three `vertex x y z` groups; any other token is
   * skipped. Stops at the end of the tokens or after the third vertex.
   */
  function FindVertices(tokens: seq<string>, j: nat, count: nat, verts: seq<real>, toFloat: string -> Option<real>): (r: Result<Found, ReadError>)
    requires j <= |tokens| && count <= 3 && |verts| == 3 * count
    ensures r.Ok? ==> j <= r.value.next <= |tokens| && count <= r.value.count <= 3
    ensures r.Ok? ==> |r.value.verts| == 3 * r.value.count && verts <= r.value.verts
    ensures r.Ok? && r.value.count < 3 ==> r.value.next == |tokens|
    ensures r.Err? ==> r.error.BadFloat?
    decreases |tokens| - j
  {
    if j < |tokens| && count < 3 then
      if IsKeyword(tokens[j], "vertex") && j + 3 < |tokens| then
        match Floats3(tokens, j + 1, toFloat)
        case Err(e) => Err(e)
        case Ok(v) => FindVertices(tokens, j + 4, count + 1, verts + v, toFloat)
      else
        FindVertices(tokens, j + 1, count, verts, toFloat)
    else
      Ok(Found(j, count, verts))
  }

  predicate AllWellFormed(fs: seq<Facet>) {
    forall k :: 0 <= k < |fs| ==> WellFormed(fs[k])
  }

  /**
   * The outer loop from token `i` with `tris` already found: a `facet` token with more than 13
   * tokens after it starts a triangle, whose normal is tokens i+2..i+4; with three vertices found
   * the scan resumes where the vertex search stopped, otherwise at the next token. The search
   * starts at i+5, so every step moves the scan forward.
   */
  function Scan(tokens: seq<string>, i: nat, tris: seq<Facet>, toFloat: string -> Option<real>): (r: Result<seq<Facet>, ReadError>)
    requires i <= |tokens| && AllWellFormed(tris)
    ensures r.Ok? ==> tris <= r.value && AllWellFormed(r.value)
    ensures r.Err? ==> r.error.BadFloat?
    decreases |tokens| - i
  {
    if i >= |tokens| then Ok(tris)
    else if IsKeyword(tokens[i], "facet") && i + 13 < |tokens| then
      match Floats3(tokens, i + 2, toFloat)
      case Err(e) => Err(e)
      case Ok(normal) =>
        match FindVertices(tokens, i + 5, 0, [], toFloat)
        case Err(e) => Err(e)
        case Ok(found) =>
          if found.count == 3 then Scan(tokens, found.next, tris + [Facet(normal, found.verts)], toFloat)
          else Scan(tokens, i + 1, tris, toFloat)
    else
      Scan(tokens, i + 1, tris, toFloat)
  }

  /** What `read_stl` returns or raises for the file's bytes. */
  function ReadStlSpec(data: seq<byte>, toFloat: string -> Option<real>, word: seq<byte> -> real): (r: Result<seq<Facet>, ReadError>)
    ensures r == Err(TooSmall) <==> |data| < 84
    ensures r.Ok? ==> AllWellFormed(r.value)
    ensures r.Ok? && r.value == [] ==> IsBinaryLayout(data) && U32At(data, 80) == 0
    ensures r != Err(BinaryTruncated)
  {
    if |data| < 84 then Err(TooSmall)
    else if IsBinaryLayout(data) then Ok(BinaryFacets(data, U32At(data, 80), word))
    else
      match Scan(Tokens(data), 0, [], toFloat)
      case Err(e) => Err(e)
      case Ok(tris) => if tris == [] then Err(NoTriangles) else Ok(tris)
  }

  // ---------------------------------------------------------------------------------------------
  // The reader

  /** `parse_binary`: `n` records from offset 84, failing if one runs past the end. */
  method ParseBinary(buf: seq<byte>, n: nat, word: seq<byte> -> real) returns (r: Result<seq<Facet>, ReadError>)
    requires |buf| >= 84
    ensures 84 + 50 * n <= |buf| ==> r == Ok(BinaryFacets(buf, n, word))
    ensures 84 + 50 * n > |buf| ==> r == Err(BinaryTruncated)
  {
    var tris: seq<Facet> := [];
    var offset := 84;
    var k := 0;
    while k < n
      invariant 0 <= k <= n && offset == 84 + 50 * k && offset <= |buf|
      invariant tris == BinaryFacets(buf, k, word)
      decreases n - k
    {
      if offset + 50 > |buf| {
        return Err(BinaryTruncated);
      }
      var normal := Unpack(buf[offset .. offset + 12], 3, word);
      var verts := Unpack(buf[offset + 12 .. offset + 48], 9, word);
      tris := tris + [Facet(normal, verts)];
      offset := offset + 50;
      k := k + 1;
    }
    return Ok(tris);
  }

  /** The inner `while` of the ASCII scan for the facet at token `i`: the search from i+5. */
  method SearchVertices(tokens: seq<string>, i: nat, toFloat: string -> Option<real>) returns (r: Result<Found, ReadError>)
    requires i + 5 <= |tokens|
    ensures r == FindVertices(tokens, i + 5, 0, [], toFloat)
  {
    var verts: seq<real> := [];
    var vcount := 0;
    var j := i + 5;
    while j < |tokens| && vcount < 3
      invariant i + 5 <= j <= |tokens| && vcount <= 3 && |verts| == 3 * vcount
      invariant FindVertices(tokens, i + 5, 0, [], toFloat) == FindVertices(tokens, j, vcount, verts, toFloat)
      decreases |tokens| - j
    {
      if Lower(tokens[j]) == "vertex" && j + 3 < |tokens| {
        var x := toFloat(tokens[j + 1]);
        if x.None? { return Err(BadFloat(tokens[j + 1])); }
        var y := toFloat(tokens[j + 2]);
        if y.None? { return Err(BadFloat(tokens[j + 2])); }
        var z := toFloat(tokens[j + 3]);
        if z.None? { return Err(BadFloat(tokens[j + 3])); }
        verts := verts + [x.value, y.value, z.value];
        vcount := vcount + 1;
        j := j + 4;
      } else {
        j := j + 1;
      }
    }
    return Ok(Found(j, vcount, verts));
  }

  /** The outer `while` of the ASCII scan over all tokens. */
  method ScanTokens(tokens: seq<string>, toFloat: string -> Option<real>) returns (r: Result<seq<Facet>, ReadError>)
    ensures r == Scan(tokens, 0, [], toFloat)
  {
    var tris: seq<Facet> := [];
    var i := 0;
    while i < |tokens|
      invariant 0 <= i <= |tokens| && AllWellFormed(tris)
      invariant Scan(tokens, 0, [], toFloat) == Scan(tokens, i, tris, toFloat)
      decreases |tokens| - i
    {
      if Lower(tokens[i]) == "facet" && i + 13 < |tokens| {
        var nx := toFloat(tokens[i + 2]);
        if nx.None? { return Err(BadFloat(tokens[i + 2])); }
        var ny := toFloat(tokens[i + 3]);
        if ny.None? { return Err(BadFloat(tokens[i + 3])); }
        var nz := toFloat(tokens[i + 4]);
        if nz.None? { return Err(BadFloat(tokens[i + 4])); }
        var found := SearchVertices(tokens, i, toFloat);
        if found.Err? {
          return Err(found.error);
        }
        if found.value.count == 3 {
          tris := tris + [Facet([nx.value, ny.value, nz.value], found.value.verts)];
          i := found.value.next;
        } else {
          i := i + 1;
        }
      } else {
        i := i + 1;
      }
    }
    return Ok(tris);
  }

  /** `read_stl` on the bytes of the file. */
  method ReadStl(data: seq<byte>, toFloat: string -> Option<real>, word: seq<byte> -> real) returns (r: Result<seq<Facet>, ReadError>)
    ensures r == ReadStlSpec(data, toFloat, word)
  {
    if |data| < 84 {
      return Err(TooSmall);
    }
    var n := U32At(data, 80);
    var expected := 84 + n * 50;
    if |data| == expected && !StartsWithSolid(data) {
      r := ParseBinary(data, n, word);
      return;
    }
    var tokens := Words(RemoveCR(Decode(data)));
    var scanned := ScanTokens(tokens, toFloat);
    if scanned.Err? {
      return Err(scanned.error);
    }
    if scanned.value == [] {
      return Err(NoTriangles);
    }
    return Ok(scanned.value);
  }

  // ---------------------------------------------------------------------------------------------
  // The writer

  const ScaledName: string := "scaled"

  lemma UnlinesSnoc(lines: seq<string>, l: string)
    ensures Unlines(lines + [l]) == Unlines(lines) + l + "\n"
  {
    UnlinesAppend(lines, [l]);
  }

  /** The seven lines of one triangle, the vertices by the `for i in range(3)` loop. */
  method WriteFacet(f: Facet, fmt: real -> string) returns (text: string)
    requires WellFormed(f)
    ensures text == Unlines(FacetLines(f, fmt))
  {
    var normal, verts := f.normal, f.verts;
    var head := NormalLine(fmt(normal[0]), fmt(normal[1]), fmt(normal[2]));
    ghost var lines := [head, OuterLoopLine];
    text := head + "\n" + OuterLoopLine + "\n";
    UnlinesSnoc([], head);
    UnlinesSnoc([head], OuterLoopLine);
    assert [] + [head] == [head] && [head] + [OuterLoopLine] == lines;
    var v := 0;
    while v < 3
      invariant 0 <= v <= 3 && text == Unlines(lines)
      invariant lines == FacetLines(f, fmt)[..2 + v]
      decreases 3 - v
    {
      var line := VertexLine(fmt(verts[3 * v]), fmt(verts[3 * v + 1]), fmt(verts[3 * v + 2]));
      UnlinesSnoc(lines, line);
      text, lines := text + line + "\n", lines + [line];
      v := v + 1;
    }
    UnlinesSnoc(lines, EndLoopLine);
    text, lines := text + EndLoopLine + "\n", lines + [EndLoopLine];
    UnlinesSnoc(lines, EndFacetLine);
    text, lines := text + EndFacetLine + "\n", lines + [EndFacetLine];
    assert lines == FacetLines(f, fmt);
  }

  lemma AllFacetLinesSnoc(tris: seq<Facet>, k: int, fmt: real -> string)
    requires AllWellFormed(tris) && 0 <= k < |tris|
    ensures AllFacetLines(tris[..k + 1], fmt) == AllFacetLines(tris[..k], fmt) + FacetLines(tris[k], fmt)
  {
    assert tris[..k + 1][..k] == tris[..k];
  }

  /** The text of a solid: its header line, the triangles' lines, its closing line. */
  lemma SolidText(name: string, tris: seq<Facet>, fmt: real -> string)
    requires AllWellFormed(tris)
    ensures Unlines(AsciiStlLines(name, tris, fmt))
         == "solid " + name + "\n" + Unlines(AllFacetLines(tris, fmt)) + "endsolid " + name + "\n"
  {
    var head, body := ["solid " + name], AllFacetLines(tris, fmt);
    UnlinesSnoc([], "solid " + name);
    assert [] + head == head;
    UnlinesAppend(head, body);
    UnlinesSnoc(head + body, "endsolid " + name);
  }

  /** The loop of `write_ascii_stl`: every triangle's lines, in order. */
  method WriteFacets(tris: seq<Facet>, fmt: real -> string) returns (text: string)
    requires AllWellFormed(tris)
    ensures text == Unlines(AllFacetLines(tris, fmt))
  {
    text := "";
    ghost var lines: seq<string> := [];
    var k := 0;
    while k < |tris|
      invariant 0 <= k <= |tris|
      invariant lines == AllFacetLines(tris[..k], fmt)
      invariant text == Unlines(lines)
      decreases |tris| - k
    {
      var chunk := WriteFacet(tris[k], fmt);
      ghost var more := FacetLines(tris[k], fmt);
      UnlinesAppend(lines, more);
      AllFacetLinesSnoc(tris, k, fmt);
      text, lines := text + chunk, lines + more;
      k := k + 1;
    }
    assert tris[..k] == tris;
  }

  /** `write_ascii_stl`: the text it writes, triangle by triangle. */
  method WriteAsciiStl(tris: seq<Facet>, fmt: real -> string) returns (text: string)
    requires AllWellFormed(tris)
    ensures text == Unlines(AsciiStlLines(ScaledName, tris, fmt))
  {
    var body := WriteFacets(tris, fmt);
    text := "solid " + ScaledName + "\n" + body + "endsolid " + ScaledName + "\n";
    SolidText(ScaledName, tris, fmt);
  }

  // ---------------------------------------------------------------------------------------------
  // Units and names

  /** Millimetres per unit for the mesh units the configuration may name. */
  const UnitTable: map<string, real> := map["mm" := 1.0, "cm" := 10.0, "m" := 1000.0]

  /** The unit scale: the table's entry, or 1 (millimetres) for any other unit. */
  function UnitScale(units: string): (s: real)
    ensures units in UnitTable ==> s == UnitTable[units]
    ensures units !in UnitTable ==> s == UnitTable["mm"]
    ensures s >= 1.0
  {
    if units in UnitTable then UnitTable[units] else 1.0
  }

  const ScaledSuffix: string := "_ascii_scaled.stl"

  predicate EndsWith(s: string, suffix: string) {
    |suffix| <= |s| && s[|s| - |suffix|..] == suffix
  }

  /** The default target list keeps a path unless it is already a scaled output. */
  predicate KeepTarget(path: string) {
    !EndsWith(path, ScaledSuffix)
  }

  /** `<dir of path, or ".">/<stem of its file name>_ascii_scaled.stl` */
  function ScaledOutPath(path: string): string {
    var dir := if Dirname(path) == "" then "." else Dirname(path);
    Join(dir, StripExtension(Basename(path)) + ScaledSuffix)
  }

  /** `os.path.join(a, b)` ends with `b`, and with a file name `b` its base name is `b`. */
  lemma JoinEndsWith(a: string, b: string)
    requires |b| > 0 && forall k :: 0 <= k < |b| ==> b[k] != '/'
    ensures EndsWith(Join(a, b), b)
    ensures Basename(Join(a, b)) == b
  {
    var p := Join(a, b);
    LastIndexAppend(a, b, '/');
    if a == [] || a[|a| - 1] == '/' {
      assert p == a + b;
      assert p[|p| - |b|..] == b;
    } else {
      assert p == (a + "/") + b;
      LastIndexAppend(a + "/", b, '/');
      assert LastIndex(a + "/", '/') == |a|;
      assert p[|p| - |b|..] == b;
    }
  }

  /**
   * A scaled output sits in its source's directory under the source's stem, and the default
   * target list of a later run leaves it out.
   */
  lemma ScaledOutputNotRescaled(path: string)
    ensures Basename(ScaledOutPath(path)) == StripExtension(Basename(path)) + ScaledSuffix
    ensures !KeepTarget(ScaledOutPath(path))
  {
    var base := Basename(path);
    var stem := StripExtension(base);
    var name := stem + ScaledSuffix;
    assert forall k :: 0 <= k < |stem| ==> stem[k] == base[k];
    NoSlashAppend(stem, ScaledSuffix);
    JoinEndsWith(if Dirname(path) == "" then "." else Dirname(path), name);
    SuffixOfSuffix(ScaledOutPath(path), stem, ScaledSuffix);
  }

  lemma NoSlashAppend(a: string, b: string)
    requires forall k :: 0 <= k < |a| ==> a[k] != '/'
    requires forall k :: 0 <= k < |b| ==> b[k] != '/'
    ensures forall k :: 0 <= k < |a + b| ==> (a + b)[k] != '/'
  {
  }

  lemma SuffixOfSuffix(p: string, a: string, b: string)
    requires EndsWith(p, a + b)
    ensures EndsWith(p, b)
  {
    assert p[|p| - |b|..] == p[|p| - |a + b|..][|a|..];
  }
}
