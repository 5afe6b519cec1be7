/**
 * What the two ASCII writers produce, read back by `read_stl`: the tokens of a written file, how
 * the scan walks them, and the resulting round trips for ASCII and binary files.
 */
module StlRoundTrip {
  import opened Wrappers
  import opened Text
  import opened StlFormat
  import opened StlRead

  /** Characters a text file round-trips through bytes and the reader's clean-up: ASCII, no carriage return. */
  predicate Plain(s: string) {
    forall k :: 0 <= k < |s| ==> s[k] as int < 128 && s[k] != '\r'
  }

  /** Every printed float is plain text. */
  ghost predicate PlainFormat(fmt: real -> string) {
    forall x :: PlainFloat(fmt, x)
  }

  predicate PlainFloat(fmt: real -> string, x: real) {
    Plain(fmt(x))
  }

  predicate PrintedToken(fmt: real -> string, toFloat: string -> Option<real>, x: real) {
    IsWord(fmt(x)) && toFloat(fmt(x)) == Some(x)
  }

  /**
   * Every component of `f` prints as one token that parses back to the same value: Python's
   * `float(str(x)) == x`, asked only of the values a file actually holds.
   */
  predicate FacetPrints(f: Facet, fmt: real -> string, toFloat: string -> Option<real>) {
    && WellFormed(f)
    && (forall i :: 0 <= i < 3 ==> PrintedToken(fmt, toFloat, f.normal[i]))
    && (forall i :: 0 <= i < 9 ==> PrintedToken(fmt, toFloat, f.verts[i]))
  }

  /** Every facet of `fs` prints and parses back. */
  predicate AllPrint(fs: seq<Facet>, fmt: real -> string, toFloat: string -> Option<real>) {
    forall k :: 0 <= k < |fs| ==> FacetPrints(fs[k], fmt, toFloat)
  }

  lemma PrefixPrints(fs: seq<Facet>, k: nat, fmt: real -> string, toFloat: string -> Option<real>)
    requires AllPrint(fs, fmt, toFloat) && k <= |fs|
    ensures AllPrint(fs[..k], fmt, toFloat)
  {
    assert forall i :: 0 <= i < k ==> fs[..k][i] == fs[i];
  }

  /** The 21 tokens of one written facet. */
  function FacetTokens(f: Facet, fmt: real -> string): (t: seq<string>)
    requires WellFormed(f)
    ensures |t| == 21
  {
    var n, v := f.normal, f.verts;
    ["facet", "normal", fmt(n[0]), fmt(n[1]), fmt(n[2])]
    + (["outer", "loop"]
    + (["vertex", fmt(v[0]), fmt(v[1]), fmt(v[2])]
    + (["vertex", fmt(v[3]), fmt(v[4]), fmt(v[5])]
    + (["vertex", fmt(v[6]), fmt(v[7]), fmt(v[8])]
    + (["endloop"] + ["endfacet"])))))
  }

  function AllFacetTokens(fs: seq<Facet>, fmt: real -> string): (t: seq<string>)
    requires AllWellFormed(fs)
    ensures |t| == 21 * |fs|
    decreases |fs|
  {
    if fs == [] then [] else AllFacetTokens(fs[..|fs| - 1], fmt) + FacetTokens(fs[|fs| - 1], fmt)
  }

  // ---------------------------------------------------------------------------------------------
  // Tokens of the written text

  lemma LeadingSpace(s: string)
    ensures Words(" " + s) == Words(s)
  {
    assert (" " + s)[1..] == s;
  }

  lemma WordsOfLinesCons(l: string, rest: seq<string>)
    ensures WordsOfLines([l] + rest) == Words(l) + WordsOfLines(rest)
  {
    assert ([l] + rest)[1..] == rest;
  }

  /** `<indent>a b c` with one to four words after the leading keyword. */
  lemma Words3After(a: string, b: string, c: string, d: string)
    requires IsWord(a) && IsWord(b) && IsWord(c) && IsWord(d)
    ensures Words(a + [' '] + (b + [' '] + (c + [' '] + d))) == [a, b, c, d]
  {
    WordsOfWord(d);
    WordThenSpace(c, ' ', d);
    WordThenSpace(b, ' ', c + [' '] + d);
    WordThenSpace(a, ' ', b + [' '] + (c + [' '] + d));
  }

  lemma HeadLineShape(a: string, b: string, c: string)
    ensures NormalLine(a, b, c)
         == " " + (" " + ("facet" + [' '] + ("normal" + [' '] + (a + [' '] + (b + [' '] + c)))))
  {
  }

  lemma HeadLineWords(a: string, b: string, c: string)
    requires IsWord(a) && IsWord(b) && IsWord(c)
    ensures Words(" " + (" " + ("facet" + [' '] + ("normal" + [' '] + (a + [' '] + (b + [' '] + c))))))
         == ["facet", "normal", a, b, c]
  {
    var body := "facet" + [' '] + ("normal" + [' '] + (a + [' '] + (b + [' '] + c)));
    LeadingSpace(" " + body);
    LeadingSpace(body);
    FacetNormalWords(a, b, c);
  }

  lemma FacetNormalWords(a: string, b: string, c: string)
    requires IsWord(a) && IsWord(b) && IsWord(c)
    ensures Words("facet" + [' '] + ("normal" + [' '] + (a + [' '] + (b + [' '] + c)))) == ["facet", "normal", a, b, c]
  {
    var tail := "normal" + [' '] + (a + [' '] + (b + [' '] + c));
    Words3After("normal", a, b, c);
    WordThenSpace("facet", ' ', tail);
  }

  lemma VertexLineShape(x: string, y: string, z: string)
    ensures VertexLine(x, y, z)
         == " " + (" " + (" " + (" " + (" " + (" " + ("vertex" + [' '] + (x + [' '] + (y + [' '] + z))))))))
  {
  }

  lemma VertexLineWords(x: string, y: string, z: string)
    requires IsWord(x) && IsWord(y) && IsWord(z)
    ensures Words(" " + (" " + (" " + (" " + (" " + (" " + ("vertex" + [' '] + (x + [' '] + (y + [' '] + z)))))))))
         == ["vertex", x, y, z]
  {
    var body := "vertex" + [' '] + (x + [' '] + (y + [' '] + z));
    SixLeadingSpaces(body);
    Words3After("vertex", x, y, z);
  }

  lemma SixLeadingSpaces(body: string)
    ensures Words(" " + (" " + (" " + (" " + (" " + (" " + body)))))) == Words(body)
  {
    LeadingSpace(" " + (" " + (" " + (" " + (" " + body)))));
    LeadingSpace(" " + (" " + (" " + (" " + body))));
    LeadingSpace(" " + (" " + (" " + body)));
    LeadingSpace(" " + (" " + body));
    LeadingSpace(" " + body);
    LeadingSpace(body);
  }

  function Spaces(k: nat): (s: string)
    ensures |s| == k && forall i :: 0 <= i < k ==> s[i] == ' '
  {
    if k == 0 then "" else " " + Spaces(k - 1)
  }

  lemma Indented(k: nat, s: string)
    ensures Words(Spaces(k) + s) == Words(s)
    decreases k
  {
    if k == 0 {
      assert Spaces(k) + s == s;
    } else {
      assert Spaces(k) + s == " " + (Spaces(k - 1) + s);
      LeadingSpace(Spaces(k - 1) + s);
      Indented(k - 1, s);
    }
  }

  lemma OneWordLine(k: nat, a: string)
    requires IsWord(a)
    ensures Words(Spaces(k) + a) == [a]
  {
    Indented(k, a);
    WordsOfWord(a);
  }

  lemma TwoWordLine(k: nat, a: string, b: string)
    requires IsWord(a) && IsWord(b)
    ensures Words(Spaces(k) + a + " " + b) == [a, b]
  {
    assert Spaces(k) + a + " " + b == Spaces(k) + (a + [' '] + b);
    Indented(k, a + [' '] + b);
    WordsOfWord(b);
    WordThenSpace(a, ' ', b);
  }

  lemma FixedLineWords()
    ensures Words(OuterLoopLine) == ["outer", "loop"]
    ensures Words(EndLoopLine) == ["endloop"]
    ensures Words(EndFacetLine) == ["endfacet"]
  {
    OuterLoopWords();
    EndLoopWords();
    EndFacetWords();
  }

  lemma OuterLoopWords()
    ensures Words(OuterLoopLine) == ["outer", "loop"]
  {
    assert OuterLoopLine == Spaces(4) + "outer" + " " + "loop";
    TwoWordLine(4, "outer", "loop");
  }

  lemma EndLoopWords()
    ensures Words(EndLoopLine) == ["endloop"]
  {
    assert EndLoopLine == Spaces(4) + "endloop";
    OneWordLine(4, "endloop");
  }

  lemma EndFacetWords()
    ensures Words(EndFacetLine) == ["endfacet"]
  {
    assert EndFacetLine == Spaces(2) + "endfacet";
    OneWordLine(2, "endfacet");
  }

  lemma WordsOfLinesDrop(ls: seq<string>, k: int)
    requires 0 <= k < |ls|
    ensures WordsOfLines(ls[k..]) == Words(ls[k]) + WordsOfLines(ls[k + 1..])
  {
    assert ls[k..][1..] == ls[k + 1..];
  }

  lemma WordsOfSevenLines(ls: seq<string>)
    requires |ls| == 7
    ensures WordsOfLines(ls) == Words(ls[0]) + (Words(ls[1]) + (Words(ls[2]) + (Words(ls[3]) + (Words(ls[4]) + (Words(ls[5]) + Words(ls[6]))))))
  {
    assert ls[0..] == ls && ls[7..] == [];
    assert Words(ls[6]) + [] == Words(ls[6]);
    WordsOfLinesDrop(ls, 0);
    WordsOfLinesDrop(ls, 1);
    WordsOfLinesDrop(ls, 2);
    WordsOfLinesDrop(ls, 3);
    WordsOfLinesDrop(ls, 4);
    WordsOfLinesDrop(ls, 5);
    WordsOfLinesDrop(ls, 6);
  }

  lemma FacetLineWords(f: Facet, fmt: real -> string, toFloat: string -> Option<real>)
    requires WellFormed(f) && FacetPrints(f, fmt, toFloat)
    ensures WordsOfLines(FacetLines(f, fmt)) == FacetTokens(f, fmt)
  {
    var n, v := f.normal, f.verts;
    var ls := FacetLines(f, fmt);
    assert PrintedToken(fmt, toFloat, n[0]) && PrintedToken(fmt, toFloat, n[1]) && PrintedToken(fmt, toFloat, n[2]);
    assert PrintedToken(fmt, toFloat, v[0]) && PrintedToken(fmt, toFloat, v[1]) && PrintedToken(fmt, toFloat, v[2]);
    assert PrintedToken(fmt, toFloat, v[3]) && PrintedToken(fmt, toFloat, v[4]) && PrintedToken(fmt, toFloat, v[5]);
    assert PrintedToken(fmt, toFloat, v[6]) && PrintedToken(fmt, toFloat, v[7]) && PrintedToken(fmt, toFloat, v[8]);
    HeadLineShape(fmt(n[0]), fmt(n[1]), fmt(n[2]));
    HeadLineWords(fmt(n[0]), fmt(n[1]), fmt(n[2]));
    VertexLineShape(fmt(v[0]), fmt(v[1]), fmt(v[2]));
    VertexLineWords(fmt(v[0]), fmt(v[1]), fmt(v[2]));
    VertexLineShape(fmt(v[3]), fmt(v[4]), fmt(v[5]));
    VertexLineWords(fmt(v[3]), fmt(v[4]), fmt(v[5]));
    VertexLineShape(fmt(v[6]), fmt(v[7]), fmt(v[8]));
    VertexLineWords(fmt(v[6]), fmt(v[7]), fmt(v[8]));
    FixedLineWords();
    WordsOfSevenLines(ls);
  }

  lemma {:induction false} AllFacetLineWords(fs: seq<Facet>, fmt: real -> string, toFloat: string -> Option<real>)
    requires AllWellFormed(fs) && AllPrint(fs, fmt, toFloat)
    ensures WordsOfLines(AllFacetLines(fs, fmt)) == AllFacetTokens(fs, fmt)
    decreases |fs|
  {
    if fs != [] {
      var init := fs[..|fs| - 1];
      PrefixWellFormed(fs, |fs| - 1);
      PrefixPrints(fs, |fs| - 1, fmt, toFloat);
      AllFacetLineWords(init, fmt, toFloat);
      FacetLineWords(fs[|fs| - 1], fmt, toFloat);
      WordsOfLinesAppend(AllFacetLines(init, fmt), FacetLines(fs[|fs| - 1], fmt));
    }
  }

  lemma NameLineWords(kw: string, name: string)
    requires IsWord(kw) && IsWord(name)
    ensures Words(kw + " " + name) == [kw, name]
  {
    assert kw + " " + name == kw + [' '] + name;
    WordsOfWord(name);
    WordThenSpace(kw, ' ', name);
  }

  lemma FramedWords(head: string, body: seq<string>, tail: string)
    ensures WordsOfLines([head] + body + [tail]) == Words(head) + WordsOfLines(body) + Words(tail)
  {
    WordsOfLinesAppend([head] + body, [tail]);
    WordsOfLinesAppend([head], body);
    assert [head][1..] == [] && [tail][1..] == [];
    assert WordsOfLines([head]) == Words(head) + WordsOfLines([]);
    assert WordsOfLines([tail]) == Words(tail) + WordsOfLines([]);
  }

  /** A document framed by two keyword lines splits into the keyword lines' words around the facets' tokens. */
  lemma FramedDocumentWords(open: string, close: string, name: string, fs: seq<Facet>, fmt: real -> string, toFloat: string -> Option<real>)
    requires IsWord(open) && IsWord(close) && IsWord(name) && AllWellFormed(fs) && AllPrint(fs, fmt, toFloat)
    ensures Words(Unlines([open + " " + name] + AllFacetLines(fs, fmt) + [close + " " + name])) == [open, name] + AllFacetTokens(fs, fmt) + [close, name]
  {
    var head, tail := open + " " + name, close + " " + name;
    var body := AllFacetLines(fs, fmt);
    WordsOfUnlines([head] + body + [tail]);
    FramedWords(head, body, tail);
    AllFacetLineWords(fs, fmt, toFloat);
    NameLineWords(open, name);
    NameLineWords(close, name);
  }

  lemma KeywordsAreWords()
    ensures IsWord("solid") && IsWord("endsolid")
  {
  }

  /** The whole file splits into `solid <name>`, the facets' tokens in order, `endsolid <name>`. */
  lemma DocumentWords(name: string, fs: seq<Facet>, fmt: real -> string, toFloat: string -> Option<real>)
    requires IsWord(name) && AllWellFormed(fs) && AllPrint(fs, fmt, toFloat)
    ensures Words(Unlines(AsciiStlLines(name, fs, fmt))) == ["solid", name] + AllFacetTokens(fs, fmt) + ["endsolid", name]
  {
    assert AsciiStlLines(name, fs, fmt) == ["solid " + name] + AllFacetLines(fs, fmt) + ["endsolid " + name];
    assert "solid " + name == "solid" + " " + name;
    assert "endsolid " + name == "endsolid" + " " + name;
    KeywordsAreWords();
    FramedDocumentWords("solid", "endsolid", name, fs, fmt, toFloat);
  }

  lemma {:induction false} AllFacetTokensAt(fs: seq<Facet>, fmt: real -> string, k: int)
    requires AllWellFormed(fs) && 0 <= k < |fs|
    ensures AllFacetTokens(fs, fmt)[21 * k .. 21 * k + 21] == FacetTokens(fs[k], fmt)
    decreases |fs|
  {
    if k < |fs| - 1 {
      AllFacetTokensAt(fs[..|fs| - 1], fmt, k);
      SliceOfFront(AllFacetTokens(fs[..|fs| - 1], fmt), FacetTokens(fs[|fs| - 1], fmt), 21 * k, 21 * k + 21);
    }
  }

  // ---------------------------------------------------------------------------------------------
  // How the scan walks them

  lemma FacetTokensAt(f: Facet, fmt: real -> string)
    requires WellFormed(f)
    ensures var t, n, v := FacetTokens(f, fmt), f.normal, f.verts;
      && t[0] == "facet" && t[2] == fmt(n[0]) && t[3] == fmt(n[1]) && t[4] == fmt(n[2])
      && t[5] == "outer" && t[6] == "loop"
      && t[7] == "vertex" && t[8] == fmt(v[0]) && t[9] == fmt(v[1]) && t[10] == fmt(v[2])
      && t[11] == "vertex" && t[12] == fmt(v[3]) && t[13] == fmt(v[4]) && t[14] == fmt(v[5])
      && t[15] == "vertex" && t[16] == fmt(v[6]) && t[17] == fmt(v[7]) && t[18] == fmt(v[8])
      && t[19] == "endloop" && t[20] == "endfacet"
  {
  }

  /** The 21 tokens from `p` on are those of `f`. */
  predicate FacetAt(tokens: seq<string>, p: nat, f: Facet, fmt: real -> string)
    requires WellFormed(f)
  {
    p + 21 <= |tokens| && tokens[p .. p + 21] == FacetTokens(f, fmt)
  }

  /** At `j`, a `vertex` keyword followed by three tokens that read as `x`, `y`, `z`. */
  predicate VertexAt(tokens: seq<string>, j: nat, toFloat: string -> Option<real>, x: real, y: real, z: real) {
    j + 4 <= |tokens| && tokens[j] == "vertex"
    && toFloat(tokens[j + 1]) == Some(x) && toFloat(tokens[j + 2]) == Some(y) && toFloat(tokens[j + 3]) == Some(z)
  }

  /** A `vertex x y z` group whose numbers parse: the search takes it and moves four tokens on. */
  lemma TakeVertex(tokens: seq<string>, j: nat, count: nat, verts: seq<real>, toFloat: string -> Option<real>, x: real, y: real, z: real)
    requires count < 3 && |verts| == 3 * count
    requires VertexAt(tokens, j, toFloat, x, y, z)
    ensures FindVertices(tokens, j, count, verts, toFloat) == FindVertices(tokens, j + 4, count + 1, verts + [x, y, z], toFloat)
  {
    assert Lower("vertex") == "vertex";
    assert Floats3(tokens, j + 1, toFloat) == Ok([x, y, z]);
  }

  lemma SearchFacet(tokens: seq<string>, p: nat, f: Facet, fmt: real -> string, toFloat: string -> Option<real>)
    requires WellFormed(f) && FacetPrints(f, fmt, toFloat)
    requires FacetAt(tokens, p, f, fmt)
    ensures FindVertices(tokens, p + 5, 0, [], toFloat) == Ok(Found(p + 19, 3, f.verts))
  {
    var t, v := FacetTokens(f, fmt), f.verts;
    FacetTokensAt(f, fmt);
    forall m | 0 <= m < 21
      ensures tokens[p + m] == t[m]
    {
      assert tokens[p + m] == tokens[p .. p + 21][m];
    }
    assert PrintedToken(fmt, toFloat, v[0]) && PrintedToken(fmt, toFloat, v[1]) && PrintedToken(fmt, toFloat, v[2]);
    assert PrintedToken(fmt, toFloat, v[3]) && PrintedToken(fmt, toFloat, v[4]) && PrintedToken(fmt, toFloat, v[5]);
    assert PrintedToken(fmt, toFloat, v[6]) && PrintedToken(fmt, toFloat, v[7]) && PrintedToken(fmt, toFloat, v[8]);
    assert |Lower("outer")| != |"vertex"| && |Lower("loop")| != |"vertex"|;
    assert FindVertices(tokens, p + 5, 0, [], toFloat) == FindVertices(tokens, p + 7, 0, [], toFloat);
    assert VertexAt(tokens, p + 7, toFloat, v[0], v[1], v[2]);
    assert VertexAt(tokens, p + 11, toFloat, v[3], v[4], v[5]);
    assert VertexAt(tokens, p + 15, toFloat, v[6], v[7], v[8]);
    ThreeVertices(tokens, p + 7, [], toFloat, v);
  }

  /** Three vertex lines in a row give the vertex search its nine coordinates. */
  lemma ThreeVertices(tokens: seq<string>, j: nat, verts: seq<real>, toFloat: string -> Option<real>, v: seq<real>)
    requires |verts| == 0 && |v| == 9
    requires VertexAt(tokens, j, toFloat, v[0], v[1], v[2])
    requires VertexAt(tokens, j + 4, toFloat, v[3], v[4], v[5])
    requires VertexAt(tokens, j + 8, toFloat, v[6], v[7], v[8])
    ensures FindVertices(tokens, j, 0, verts, toFloat) == Ok(Found(j + 12, 3, v))
  {
    var a := verts + [v[0], v[1], v[2]];
    TakeVertex(tokens, j, 0, verts, toFloat, v[0], v[1], v[2]);
    TwoVertices(tokens, j + 4, a, toFloat, v[3], v[4], v[5], v[6], v[7], v[8]);
    assert a + [v[3], v[4], v[5]] + [v[6], v[7], v[8]] == v;
  }

  /** The second and third vertex lines complete the search. */
  lemma TwoVertices(tokens: seq<string>, j: nat, verts: seq<real>, toFloat: string -> Option<real>,
                    x: real, y: real, z: real, x': real, y': real, z': real)
    requires |verts| == 3
    requires VertexAt(tokens, j, toFloat, x, y, z) && VertexAt(tokens, j + 4, toFloat, x', y', z')
    ensures FindVertices(tokens, j, 1, verts, toFloat) == Ok(Found(j + 8, 3, verts + [x, y, z] + [x', y', z']))
  {
    TakeVertex(tokens, j, 1, verts, toFloat, x, y, z);
    LastVertex(tokens, j + 4, verts + [x, y, z], toFloat, x', y', z');
  }

  /** The third vertex line ends the search with all nine coordinates. */
  lemma LastVertex(tokens: seq<string>, j: nat, verts: seq<real>, toFloat: string -> Option<real>, x: real, y: real, z: real)
    requires |verts| == 6
    requires VertexAt(tokens, j, toFloat, x, y, z)
    ensures FindVertices(tokens, j, 2, verts, toFloat) == Ok(Found(j + 4, 3, verts + [x, y, z]))
  {
    TakeVertex(tokens, j, 2, verts, toFloat, x, y, z);
  }

  /** At a written facet's 21 tokens, the scan records exactly that facet and moves past it. */
  lemma ScanFacet(tokens: seq<string>, p: nat, acc: seq<Facet>, f: Facet, fmt: real -> string, toFloat: string -> Option<real>)
    requires WellFormed(f) && AllWellFormed(acc) && FacetPrints(f, fmt, toFloat)
    requires FacetAt(tokens, p, f, fmt)
    ensures AllWellFormed(acc + [f])
    ensures Scan(tokens, p, acc, toFloat) == Scan(tokens, p + 21, acc + [f], toFloat)
  {
    var t, n := FacetTokens(f, fmt), f.normal;
    FacetTokensAt(f, fmt);
    assert tokens[p] == t[0] && tokens[p + 19] == t[19] && tokens[p + 20] == t[20] by {
      assert tokens[p] == tokens[p .. p + 21][0];
      assert tokens[p + 19] == tokens[p .. p + 21][19];
      assert tokens[p + 20] == tokens[p .. p + 21][20];
    }
    assert tokens[p + 2] == t[2] && tokens[p + 3] == t[3] && tokens[p + 4] == t[4] by {
      assert tokens[p + 2] == tokens[p .. p + 21][2];
      assert tokens[p + 3] == tokens[p .. p + 21][3];
      assert tokens[p + 4] == tokens[p .. p + 21][4];
    }
    assert PrintedToken(fmt, toFloat, n[0]) && PrintedToken(fmt, toFloat, n[1]) && PrintedToken(fmt, toFloat, n[2]);
    assert Lower("facet") == "facet";
    assert Floats3(tokens, p + 2, toFloat) == Ok([n[0], n[1], n[2]]);
    assert [n[0], n[1], n[2]] == n;
    SearchFacet(tokens, p, f, fmt, toFloat);
    assert |Lower("endloop")| != |"facet"| && |Lower("endfacet")| != |"facet"|;
    assert IsKeyword(tokens[p], "facet") && p + 13 < |tokens|;
    assert Scan(tokens, p, acc, toFloat) == Scan(tokens, p + 19, acc + [Facet(n, f.verts)], toFloat);
    assert Facet(n, f.verts) == f;
    assert Scan(tokens, p + 19, acc + [f], toFloat) == Scan(tokens, p + 20, acc + [f], toFloat);
    assert Scan(tokens, p + 20, acc + [f], toFloat) == Scan(tokens, p + 21, acc + [f], toFloat);
  }

  /** From `base` on, `tokens` holds the tokens of each facet of `fs` in turn. */
  predicate FacetWindows(tokens: seq<string>, base: nat, fs: seq<Facet>, fmt: real -> string)
    requires AllWellFormed(fs)
  {
    base + 21 * |fs| <= |tokens| &&
    forall r :: 0 <= r < |fs| ==> FacetAt(tokens, base + 21 * r, fs[r], fmt)
  }

  /**
   * From the `k`-th facet on, the scan collects the remaining facets, then stops at a closing
   * pair of tokens that does not start a facet.
   */
  lemma {:induction false} ScanFacets(tokens: seq<string>, base: nat, fs: seq<Facet>, k: nat, fmt: real -> string, toFloat: string -> Option<real>)
    requires AllWellFormed(fs) && AllPrint(fs, fmt, toFloat) && k <= |fs|
    requires FacetWindows(tokens, base, fs, fmt)
    requires |tokens| == base + 21 * |fs| + 2 && !IsKeyword(tokens[base + 21 * |fs|], "facet")
    ensures Scan(tokens, base + 21 * k, fs[..k], toFloat) == Ok(fs)
    decreases |fs| - k
  {
    if k == |fs| {
      assert fs[..k] == fs;
      ScanClosing(tokens, base + 21 * |fs|, fs, toFloat);
    } else {
      WindowAt(tokens, base, fs, k, fmt);
      ScanNextFacet(tokens, base + 21 * k, fs, k, fmt, toFloat);
      ScanFacets(tokens, base, fs, k + 1, fmt, toFloat);
    }
  }

  lemma ScanEveryFacet(tokens: seq<string>, base: nat, fs: seq<Facet>, fmt: real -> string, toFloat: string -> Option<real>)
    requires AllWellFormed(fs) && AllPrint(fs, fmt, toFloat)
    requires FacetWindows(tokens, base, fs, fmt)
    requires |tokens| == base + 21 * |fs| + 2 && !IsKeyword(tokens[base + 21 * |fs|], "facet")
    ensures Scan(tokens, base, [], toFloat) == Ok(fs)
  {
    ScanFacets(tokens, base, fs, 0, fmt, toFloat);
    assert fs[..0] == [];
  }

  lemma ScanNextFacet(tokens: seq<string>, p: nat, fs: seq<Facet>, k: nat, fmt: real -> string, toFloat: string -> Option<real>)
    requires AllWellFormed(fs) && AllPrint(fs, fmt, toFloat) && k < |fs|
    requires FacetAt(tokens, p, fs[k], fmt)
    ensures Scan(tokens, p, fs[..k], toFloat) == Scan(tokens, p + 21, fs[..k + 1], toFloat)
  {
    PrefixWellFormed(fs, k);
    ScanFacet(tokens, p, fs[..k], fs[k], fmt, toFloat);
    assert fs[..k] + [fs[k]] == fs[..k + 1];
  }

  lemma WindowAt(tokens: seq<string>, base: nat, fs: seq<Facet>, k: nat, fmt: real -> string)
    requires AllWellFormed(fs) && k < |fs|
    requires FacetWindows(tokens, base, fs, fmt)
    ensures WellFormed(fs[k]) && FacetAt(tokens, base + 21 * k, fs[k], fmt)
  {
  }

  lemma PrefixWellFormed(fs: seq<Facet>, k: nat)
    requires AllWellFormed(fs) && k <= |fs|
    ensures AllWellFormed(fs[..k])
  {
    assert forall i :: 0 <= i < k ==> fs[..k][i] == fs[i];
  }

  /** Two tokens that are not `facet` are skipped. */
  lemma ScanSkipTwo(tokens: seq<string>, i: nat, toFloat: string -> Option<real>)
    requires i + 2 <= |tokens| && !IsKeyword(tokens[i], "facet") && !IsKeyword(tokens[i + 1], "facet")
    ensures Scan(tokens, i, [], toFloat) == Scan(tokens, i + 2, [], toFloat)
  {
  }

  /** Two trailing tokens, the first not `facet`: the scan stops with what it has. */
  lemma ScanClosing(tokens: seq<string>, i: nat, fs: seq<Facet>, toFloat: string -> Option<real>)
    requires i + 2 == |tokens| && !IsKeyword(tokens[i], "facet") && AllWellFormed(fs)
    ensures Scan(tokens, i, fs, toFloat) == Ok(fs)
  {
    assert Scan(tokens, i + 1, fs, toFloat) == Scan(tokens, i + 2, fs, toFloat);
  }

  lemma KeywordsAreNotFacet()
    ensures !IsKeyword("solid", "facet") && !IsKeyword("endsolid", "facet")
  {
    assert Lower("solid")[0] == 's';
    assert |Lower("endsolid")| != |"facet"|;
  }

  lemma DocumentWindows(pre: seq<string>, fs: seq<Facet>, post: seq<string>, fmt: real -> string)
    requires AllWellFormed(fs) && |pre| == 2
    ensures FacetWindows(pre + AllFacetTokens(fs, fmt) + post, 2, fs, fmt)
  {
    var body := AllFacetTokens(fs, fmt);
    forall r | 0 <= r < |fs|
      ensures (pre + body + post)[2 + 21 * r .. 2 + 21 * r + 21] == FacetTokens(fs[r], fmt)
    {
      AllFacetTokensAt(fs, fmt, r);
      SliceOfMiddle(pre, body, post, 21 * r, 21 * r + 21);
    }
  }

  /** Facets' tokens framed by two non-`facet` tokens on each side scan to exactly those facets. */
  lemma ScanFramed(tokens: seq<string>, i: nat, fs: seq<Facet>, fmt: real -> string, toFloat: string -> Option<real>)
    requires AllWellFormed(fs) && AllPrint(fs, fmt, toFloat) && |tokens| == i + 21 * |fs| + 4
    requires !IsKeyword(tokens[i], "facet") && !IsKeyword(tokens[i + 1], "facet")
    requires !IsKeyword(tokens[i + 2 + 21 * |fs|], "facet")
    requires FacetWindows(tokens, i + 2, fs, fmt)
    ensures Scan(tokens, i, [], toFloat) == Ok(fs)
  {
    ScanSkipTwo(tokens, i, toFloat);
    ScanEveryFacet(tokens, i + 2, fs, fmt, toFloat);
  }

  /** The scan of a written file's tokens finds exactly the written facets. */
  lemma ScanDocument(name: string, fs: seq<Facet>, fmt: real -> string, toFloat: string -> Option<real>)
    requires IsWord(name) && Lower(name) != "facet" && AllWellFormed(fs) && AllPrint(fs, fmt, toFloat)
    ensures Scan(["solid", name] + AllFacetTokens(fs, fmt) + ["endsolid", name], 0, [], toFloat) == Ok(fs)
  {
    var tokens := ["solid", name] + AllFacetTokens(fs, fmt) + ["endsolid", name];
    KeywordsAreNotFacet();
    DocumentWindows(["solid", name], fs, ["endsolid", name], fmt);
    assert tokens[2 + 21 * |fs|] == "endsolid";
    ScanFramed(tokens, 0, fs, fmt, toFloat);
  }

  // ---------------------------------------------------------------------------------------------
  // Bytes

  lemma {:induction false} PlainUnlines(lines: seq<string>)
    requires forall i :: 0 <= i < |lines| ==> Plain(lines[i])
    ensures Plain(Unlines(lines))
    decreases |lines|
  {
    if lines != [] {
      PlainUnlines(lines[1..]);
      PlainAppend(lines[0], "\n");
      PlainAppend(lines[0] + "\n", Unlines(lines[1..]));
    }
  }

  lemma PlainAppend(a: string, b: string)
    requires Plain(a) && Plain(b)
    ensures Plain(a + b)
  {
  }

  lemma PlainJoin3(a: string, b: string, c: string)
    requires Plain(a) && Plain(b) && Plain(c)
    ensures Plain(a + " " + b + " " + c)
  {
    PlainAppend(a, " ");
    PlainAppend(a + " ", b);
    PlainAppend(a + " " + b, " ");
    PlainAppend(a + " " + b + " ", c);
  }

  lemma PrefixedPlain(prefix: string, x: string, y: string, z: string)
    requires Plain(prefix) && Plain(x) && Plain(y) && Plain(z)
    ensures Plain(prefix + x + " " + y + " " + z)
  {
    PlainJoin3(x, y, z);
    PlainAppend(prefix, x + " " + y + " " + z);
    assert prefix + x + " " + y + " " + z == prefix + (x + " " + y + " " + z);
  }

  lemma FacetLinesPlain(f: Facet, fmt: real -> string)
    requires WellFormed(f) && PlainFormat(fmt)
    ensures forall i :: 0 <= i < 7 ==> Plain(FacetLines(f, fmt)[i])
  {
    var n, v := f.normal, f.verts;
    assert PlainFloat(fmt, n[0]) && PlainFloat(fmt, n[1]) && PlainFloat(fmt, n[2]);
    assert PlainFloat(fmt, v[0]) && PlainFloat(fmt, v[1]) && PlainFloat(fmt, v[2]);
    assert PlainFloat(fmt, v[3]) && PlainFloat(fmt, v[4]) && PlainFloat(fmt, v[5]);
    assert PlainFloat(fmt, v[6]) && PlainFloat(fmt, v[7]) && PlainFloat(fmt, v[8]);
    NormalLinePlain(fmt(n[0]), fmt(n[1]), fmt(n[2]));
    VertexLinePlain(fmt(v[0]), fmt(v[1]), fmt(v[2]));
    VertexLinePlain(fmt(v[3]), fmt(v[4]), fmt(v[5]));
    VertexLinePlain(fmt(v[6]), fmt(v[7]), fmt(v[8]));
  }

  lemma NormalLinePlain(x: string, y: string, z: string)
    requires Plain(x) && Plain(y) && Plain(z)
    ensures Plain(NormalLine(x, y, z))
  {
    PrefixedPlain("  facet normal ", x, y, z);
  }

  lemma VertexLinePlain(x: string, y: string, z: string)
    requires Plain(x) && Plain(y) && Plain(z)
    ensures Plain(VertexLine(x, y, z))
  {
    PrefixedPlain("      vertex ", x, y, z);
  }

  lemma {:induction false} AllFacetLinesPlain(fs: seq<Facet>, fmt: real -> string)
    requires AllWellFormed(fs) && PlainFormat(fmt)
    ensures forall i :: 0 <= i < |AllFacetLines(fs, fmt)| ==> Plain(AllFacetLines(fs, fmt)[i])
    decreases |fs|
  {
    if fs != [] {
      AllFacetLinesPlain(fs[..|fs| - 1], fmt);
      FacetLinesPlain(fs[|fs| - 1], fmt);
    }
  }

  /** A written file is plain text when the name and every printed float are. */
  lemma DocumentPlain(name: string, fs: seq<Facet>, fmt: real -> string)
    requires Plain(name) && AllWellFormed(fs) && PlainFormat(fmt)
    ensures Plain(Unlines(AsciiStlLines(name, fs, fmt)))
  {
    AllFacetLinesPlain(fs, fmt);
    PlainAppend("solid ", name);
    PlainAppend("endsolid ", name);
    FramedPlain("solid " + name, AllFacetLines(fs, fmt), "endsolid " + name);
  }

  /** Plain head and tail lines around plain body lines give plain text. */
  lemma FramedPlain(head: string, body: seq<string>, tail: string)
    requires Plain(head) && Plain(tail)
    requires forall i :: 0 <= i < |body| ==> Plain(body[i])
    ensures Plain(Unlines([head] + body + [tail]))
  {
    var lines := [head] + body + [tail];
    forall i | 0 <= i < |lines|
      ensures Plain(lines[i])
    {
      if 0 < i < |lines| - 1 {
        assert lines[i] == body[i - 1];
      }
    }
    PlainUnlines(lines);
  }

  /** The bytes of a written file: the ASCII text, one byte per character. */
  function WrittenBytes(name: string, fs: seq<Facet>, fmt: real -> string): (b: seq<byte>)
    requires Plain(name) && AllWellFormed(fs) && PlainFormat(fmt)
    ensures |b| == |Unlines(AsciiStlLines(name, fs, fmt))|
    ensures Decode(b) == Unlines(AsciiStlLines(name, fs, fmt))
  {
    var text := Unlines(AsciiStlLines(name, fs, fmt));
    DocumentPlain(name, fs, fmt);
    DecodeAscii(text);
    AsciiBytes(text)
  }

  lemma UnlinesLength7(ls: seq<string>)
    requires |ls| == 7
    ensures |Unlines(ls)| == |ls[0]| + |ls[1]| + |ls[2]| + |ls[3]| + |ls[4]| + |ls[5]| + |ls[6]| + 7
  {
    assert ls == ls[..6] + [ls[6]];
    assert ls[..6] == ls[..5] + [ls[5]];
    assert ls[..5] == ls[..4] + [ls[4]];
    assert ls[..4] == ls[..3] + [ls[3]];
    assert ls[..3] == ls[..2] + [ls[2]];
    assert ls[..2] == ls[..1] + [ls[1]];
    assert ls[..1] == [] + [ls[0]];
    UnlinesSnoc([], ls[0]);
    UnlinesSnoc(ls[..1], ls[1]);
    UnlinesSnoc(ls[..2], ls[2]);
    UnlinesSnoc(ls[..3], ls[3]);
    UnlinesSnoc(ls[..4], ls[4]);
    UnlinesSnoc(ls[..5], ls[5]);
    UnlinesSnoc(ls[..6], ls[6]);
  }

  /** The seven lines of one facet take at least 84 characters. */
  lemma FacetTextLength(f: Facet, fmt: real -> string, toFloat: string -> Option<real>)
    requires WellFormed(f) && FacetPrints(f, fmt, toFloat)
    ensures |Unlines(FacetLines(f, fmt))| >= 84
  {
    assert PrintedToken(fmt, toFloat, f.normal[0]) && PrintedToken(fmt, toFloat, f.verts[0]);
    assert PrintedToken(fmt, toFloat, f.verts[3]) && PrintedToken(fmt, toFloat, f.verts[6]);
    UnlinesLength7(FacetLines(f, fmt));
  }

  /** One facet alone already makes the file longer than the 84 bytes the reader demands. */
  lemma WrittenLength(name: string, fs: seq<Facet>, fmt: real -> string, toFloat: string -> Option<real>)
    requires AllWellFormed(fs) && fs != [] && AllPrint(fs, fmt, toFloat)
    ensures |Unlines(AsciiStlLines(name, fs, fmt))| >= 84
  {
    var last := fs[|fs| - 1];
    var init := AllFacetLines(fs[..|fs| - 1], fmt);
    var ls := FacetLines(last, fmt);
    FacetTextLength(last, fmt, toFloat);
    assert AsciiStlLines(name, fs, fmt) == (["solid " + name] + init) + ls + ["endsolid " + name];
    UnlinesAppend((["solid " + name] + init) + ls, ["endsolid " + name]);
    UnlinesAppend(["solid " + name] + init, ls);
  }

  // ---------------------------------------------------------------------------------------------
  // Round trips

  /**
   * A file written by either ASCII writer, read back by `read_stl`, gives exactly the triangles
   * written: it opens with "solid", so the binary branch is never taken, and the scan finds every
   * facet in order.
   */
  lemma AsciiRoundTrip(name: string, fs: seq<Facet>, fmt: real -> string, toFloat: string -> Option<real>, word: seq<byte> -> real)
    requires IsWord(name) && Plain(name) && Lower(name) != "facet"
    requires AllWellFormed(fs) && fs != [] && PlainFormat(fmt) && AllPrint(fs, fmt, toFloat)
    ensures StartsWithSolid(WrittenBytes(name, fs, fmt))
    ensures ReadStlSpec(WrittenBytes(name, fs, fmt), toFloat, word) == Ok(fs)
  {
    var text := Unlines(AsciiStlLines(name, fs, fmt));
    var data := WrittenBytes(name, fs, fmt);
    assert data == AsciiBytes(text);
    WrittenLength(name, fs, fmt, toFloat);
    SolidHead(name, fs, fmt);
    SolidBytesPrefix(text);
    DocumentPlain(name, fs, fmt);
    RemoveCRNoop(text);
    DocumentWords(name, fs, fmt, toFloat);
    ScanDocument(name, fs, fmt, toFloat);
  }

  /**
   * With no triangles a written file is only its two name lines, 17 + 2·|name| bytes. Up to a
   * name of 33 characters that is under the 84 bytes `read_stl` demands; with a longer name the
   * scan finds no facet. Either way the file does not read back as the empty list it came from.
   */
  lemma EmptyWrittenNotReadable(name: string, fmt: real -> string, toFloat: string -> Option<real>, word: seq<byte> -> real)
    requires IsWord(name) && Plain(name) && Lower(name) != "facet" && PlainFormat(fmt)
    ensures |WrittenBytes(name, [], fmt)| == 17 + 2 * |name|
    ensures |name| <= 33 ==> ReadStlSpec(WrittenBytes(name, [], fmt), toFloat, word) == Err(TooSmall)
    ensures |name| > 33 ==> ReadStlSpec(WrittenBytes(name, [], fmt), toFloat, word) == Err(NoTriangles)
  {
    var text := Unlines(AsciiStlLines(name, [], fmt));
    var lines := AsciiStlLines(name, [], fmt);
    assert lines == ["solid " + name, "endsolid " + name];
    assert lines[1..] == ["endsolid " + name] && lines[1..][1..] == [];
    assert |Unlines(lines[1..])| == 10 + |name|;
    var data := WrittenBytes(name, [], fmt);
    if |name| > 33 {
      assert data == AsciiBytes(text);
      SolidHead(name, [], fmt);
      SolidBytesPrefix(text);
      DocumentPlain(name, [], fmt);
      RemoveCRNoop(text);
      DocumentWords(name, [], fmt, toFloat);
      ScanDocument(name, [], fmt, toFloat);
    }
  }

  /**
   * The scaling tool, given a file that reads as no triangles (an 84-byte binary file with count
   * 0), writes "solid scaled" and "endsolid scaled" only: 29 bytes, which it cannot read again.
   */
  lemma EmptyScaledFileTooSmall(fmt: real -> string, toFloat: string -> Option<real>, word: seq<byte> -> real)
    requires PlainFormat(fmt)
    ensures |WrittenBytes(ScaledName, [], fmt)| == 29
    ensures ReadStlSpec(WrittenBytes(ScaledName, [], fmt), toFloat, word) == Err(TooSmall)
  {
    assert Lower(ScaledName)[0] == 's';
    EmptyWrittenNotReadable(ScaledName, fmt, toFloat, word);
  }

  /** A written file's text opens with "solid ". */
  lemma SolidHead(name: string, fs: seq<Facet>, fmt: real -> string)
    requires AllWellFormed(fs)
    ensures |Unlines(AsciiStlLines(name, fs, fmt))| >= 6
    ensures Unlines(AsciiStlLines(name, fs, fmt))[..6] == "solid "
  {
    var lines := AsciiStlLines(name, fs, fmt);
    assert Unlines(lines) == lines[0] + "\n" + Unlines(lines[1..]);
    assert lines[0] == "solid " + name;
  }

  /** ASCII text that opens with "solid " is stored as bytes the binary check reads as "solid". */
  lemma SolidBytesPrefix(text: string)
    requires IsAscii(text) && |text| >= 6 && text[..6] == "solid "
    ensures StartsWithSolid(AsciiBytes(text))
  {
    var data := AsciiBytes(text);
    assert text[0] == 's' && text[1] == 'o' && text[2] == 'l' && text[3] == 'i' && text[4] == 'd' by {
      assert forall k :: 0 <= k < 6 ==> text[k] == text[..6][k];
    }
    assert data[0] == 115 && data[1] == 111 && data[2] == 108 && data[3] == 105 && data[4] == 100;
  }

  /** A binary file whose header does not open with "solid" reads back as its records, in order. */
  lemma BinaryRoundTrip(header: seq<byte>, records: seq<seq<byte>>, toFloat: string -> Option<real>, word: seq<byte> -> real)
    requires |header| == 80 && !StartsWithSolid(header) && |records| < U32Range
    requires forall r :: 0 <= r < |records| ==> |records[r]| == 50
    ensures ReadStlSpec(BinaryImage(header, records), toFloat, word)
         == Ok(seq(|records|, i requires 0 <= i < |records| => Record(records[i], word)))
  {
    var b := BinaryImage(header, records);
    BinaryImageLayout(header, records, word);
    assert b[..5] == header[..5];
    assert !StartsWithSolid(b) by {
      assert forall k :: 0 <= k < 5 ==> b[k] == header[k];
    }
  }
}
