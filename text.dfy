/**
 * Text primitives the writers and readers rely on: decimal integers as `operator<<` on an `int`
 * and Python's `str(int)` print them, Python's `str.split()` on ASCII text, `" ".join(...)`,
 * ASCII lower-casing, and files as newline-terminated lines.
 */
module Text {
  import opened Wrappers

  // ---------------------------------------------------------------------------------------------
  // Whitespace splitting (Python's `str.split()` with no argument)

  /** The ASCII characters Python's `str.isspace()` accepts: space, \t \n \v \f \r and U+001C..U+001F. */
  predicate IsSpace(c: char) {
    var k := c as int;
    k == 32 || 9 <= k <= 13 || 28 <= k <= 31
  }

  /** A non-empty run of non-space characters: what `split()` can return as one token. */
  predicate IsWord(w: string) {
    |w| > 0 && forall i :: 0 <= i < |w| ==> !IsSpace(w[i])
  }

  /** Length of the longest space-free prefix. */
  function WordLen(s: string): (n: nat)
    ensures n <= |s|
    ensures forall k :: 0 <= k < n ==> !IsSpace(s[k])
    ensures n < |s| ==> IsSpace(s[n])
  {
    if s == [] || IsSpace(s[0]) then 0 else 1 + WordLen(s[1..])
  }

  /** `s.split()`: the maximal space-free runs of `s`, in order. */
  function Words(s: string): (r: seq<string>)
    ensures forall i :: 0 <= i < |r| ==> IsWord(r[i])
    decreases |s|
  {
    if s == [] then []
    else if IsSpace(s[0]) then Words(s[1..])
    else
      var n := WordLen(s);
      [s[..n]] + Words(s[n..])
  }

  lemma WordLenUnique(s: string, m: nat)
    requires m <= |s|
    requires forall k :: 0 <= k < m ==> !IsSpace(s[k])
    requires m < |s| ==> IsSpace(s[m])
    ensures WordLen(s) == m
  {
  }

  /** Splitting at a whitespace character splits the token list at the same place. */
  lemma {:induction false} WordsSplitAt(a: string, c: char, b: string)
    requires IsSpace(c)
    ensures Words(a + [c] + b) == Words(a) + Words(b)
    decreases |a|
  {
    var s := a + [c] + b;
    if a == [] {
      assert s[1..] == b;
    } else if IsSpace(a[0]) {
      assert s[1..] == a[1..] + [c] + b;
      WordsSplitAt(a[1..], c, b);
    } else {
      var m := WordLen(a);
      WordLenUnique(s, m);
      assert s[..m] == a[..m];
      assert s[m..] == a[m..] + [c] + b;
      WordsSplitAt(a[m..], c, b);
    }
  }

  /** A word splits to itself. */
  lemma WordsOfWord(w: string)
    requires IsWord(w)
    ensures Words(w) == [w]
  {
    WordLenUnique(w, |w|);
    assert w[..|w|] == w;
    assert w[|w|..] == [];
  }

  lemma WordsOfSpaces(s: string)
    requires forall i :: 0 <= i < |s| ==> IsSpace(s[i])
    ensures Words(s) == []
    decreases |s|
  {
    if s != [] {
      WordsOfSpaces(s[1..]);
    }
  }

  /** A word followed by whitespace contributes exactly itself. */
  lemma WordThenSpace(w: string, c: char, rest: string)
    requires IsWord(w) && IsSpace(c)
    ensures Words(w + [c] + rest) == [w] + Words(rest)
  {
    WordsSplitAt(w, c, rest);
    WordsOfWord(w);
  }

  // ---------------------------------------------------------------------------------------------
  // Joining

  /** Python's `sep.join(parts)`. */
  function JoinWith(sep: string, parts: seq<string>): string
    decreases |parts|
  {
    if |parts| == 0 then ""
    else if |parts| == 1 then parts[0]
    else parts[0] + sep + JoinWith(sep, parts[1..])
  }

  /** `" ".join` of words splits back into the same words. */
  lemma {:induction false} WordsOfJoin(parts: seq<string>)
    requires forall i :: 0 <= i < |parts| ==> IsWord(parts[i])
    ensures Words(JoinWith(" ", parts)) == parts
    decreases |parts|
  {
    if |parts| == 0 {
    } else if |parts| == 1 {
      WordsOfWord(parts[0]);
    } else {
      WordsOfJoin(parts[1..]);
      assert parts[0] + " " + JoinWith(" ", parts[1..]) == parts[0] + [' '] + JoinWith(" ", parts[1..]);
      WordThenSpace(parts[0], ' ', JoinWith(" ", parts[1..]));
      assert parts == [parts[0]] + parts[1..];
    }
  }

  // ---------------------------------------------------------------------------------------------
  // Files as lines

  /** A text file written line by line: every line followed by "\n". */
  function Unlines(lines: seq<string>): string
    decreases |lines|
  {
    if lines == [] then "" else lines[0] + "\n" + Unlines(lines[1..])
  }

  /** The tokens of every line, line after line. */
  function WordsOfLines(lines: seq<string>): seq<string>
    decreases |lines|
  {
    if lines == [] then [] else Words(lines[0]) + WordsOfLines(lines[1..])
  }

  /** One more element of a prefix. */
  lemma TakeSnoc(lines: seq<string>, k: int)
    requires 0 <= k < |lines|
    ensures lines[..k + 1] == lines[..k] + [lines[k]]
  {
  }

  lemma {:induction false} UnlinesAppend(a: seq<string>, b: seq<string>)
    ensures Unlines(a + b) == Unlines(a) + Unlines(b)
    decreases |a|
  {
    if a != [] {
      assert (a + b)[1..] == a[1..] + b;
      UnlinesAppend(a[1..], b);
    } else {
      assert a + b == b;
    }
  }

  lemma {:induction false} WordsOfLinesAppend(a: seq<string>, b: seq<string>)
    ensures WordsOfLines(a + b) == WordsOfLines(a) + WordsOfLines(b)
    decreases |a|
  {
    if a != [] {
      assert (a + b)[1..] == a[1..] + b;
      WordsOfLinesAppend(a[1..], b);
    } else {
      assert a + b == b;
    }
  }

  /** Splitting a whole file gives the tokens of its lines, in order. */
  lemma {:induction false} WordsOfUnlines(lines: seq<string>)
    ensures Words(Unlines(lines)) == WordsOfLines(lines)
    decreases |lines|
  {
    if lines != [] {
      WordsOfUnlines(lines[1..]);
      assert lines[0] + "\n" + Unlines(lines[1..]) == lines[0] + ['\n'] + Unlines(lines[1..]);
      WordsSplitAt(lines[0], '\n', Unlines(lines[1..]));
    }
  }

  // ---------------------------------------------------------------------------------------------
  // ASCII lower-casing

  function LowerChar(c: char): char {
    if 'A' <= c <= 'Z' then (c as int + 32) as char else c
  }

  predicate IsUpper(c: char) {
    'A' <= c <= 'Z'
  }

  /**
   * `str.lower()` restricted to ASCII: no upper-case letter is left, and a character changes
   * exactly when it is an upper-case letter.
   */
  function Lower(s: string): (r: string)
    ensures |r| == |s|
    ensures forall i :: 0 <= i < |s| ==> r[i] == LowerChar(s[i])
    ensures forall i :: 0 <= i < |r| ==> !IsUpper(r[i])
    ensures forall i :: 0 <= i < |s| ==> (r[i] != s[i] <==> IsUpper(s[i]))
    ensures forall i :: 0 <= i < |s| && IsUpper(s[i]) ==> r[i] as int == s[i] as int + 32
  {
    seq(|s|, i requires 0 <= i < |s| => LowerChar(s[i]))
  }

  /** Lower-casing twice is lower-casing once, and text without upper-case letters is its own lower case. */
  lemma LowerIdempotent(s: string)
    ensures Lower(Lower(s)) == Lower(s)
    ensures (forall i :: 0 <= i < |s| ==> !IsUpper(s[i])) <==> Lower(s) == s
  {
  }

  // ---------------------------------------------------------------------------------------------
  // Decimal integers

  predicate IsDigit(c: char) {
    '0' <= c <= '9'
  }

  predicate AllDigits(s: string) {
    forall i :: 0 <= i < |s| ==> IsDigit(s[i])
  }

  function DigitChar(d: nat): (c: char)
    requires d < 10
    ensures IsDigit(c)
  {
    ('0' as int + d) as char
  }

  /** The shortest decimal spelling of `n`. */
  function NatToString(n: nat): (s: string)
    ensures |s| > 0 && AllDigits(s)
    decreases n
  {
    if n < 10 then [DigitChar(n)] else NatToString(n / 10) + [DigitChar(n % 10)]
  }

  /** `operator<<` on an `int`, `std::to_string(int)` and Python's `str(int)`. */
  function IntToString(n: int): (s: string)
    ensures IsWord(s)
    ensures s[0] == '-' <==> n < 0
    ensures n < 0 ==> AllDigits(s[1..])
    ensures n >= 0 ==> AllDigits(s)
  {
    if n < 0 then "-" + NatToString(-n) else NatToString(n)
  }

  /** The value of a string of decimal digits, most significant first. */
  function DigitsValue(s: string): nat
    requires AllDigits(s)
    decreases |s|
  {
    if s == [] then 0 else 10 * DigitsValue(s[..|s| - 1]) + (s[|s| - 1] as int - '0' as int)
  }

  /** Reads an optionally negative decimal integer, the form `IntToString` emits. */
  function ParseInt(s: string): Option<int> {
    if |s| > 0 && AllDigits(s) then Some(DigitsValue(s))
    else if |s| > 1 && s[0] == '-' && AllDigits(s[1..]) then Some(-(DigitsValue(s[1..]) as int))
    else None
  }

  lemma {:induction false} NatToStringValue(n: nat)
    ensures DigitsValue(NatToString(n)) == n
    decreases n
  {
    if n >= 10 {
      NatToStringValue(n / 10);
      var s := NatToString(n);
      assert s[..|s| - 1] == NatToString(n / 10);
    }
  }

  /** A minus sign before digits reads as the negated value. */
  lemma ParseNegative(d: string)
    requires |d| > 0 && AllDigits(d)
    ensures ParseInt("-" + d) == Some(-(DigitsValue(d) as int))
  {
    var s := "-" + d;
    assert s[1..] == d;
    assert !IsDigit(s[0]);
  }

  /** Decimal printing and parsing are inverse. */
  lemma ParseIntRoundTrip(n: int)
    ensures ParseInt(IntToString(n)) == Some(n)
  {
    if n < 0 {
      NatToStringValue(-n);
      ParseNegative(NatToString(-n));
    } else {
      NatToStringValue(n);
    }
  }

  /** A slice inside the middle part of a concatenation is a slice of that part. */
  lemma SliceOfMiddle<T>(a: seq<T>, b: seq<T>, c: seq<T>, i: int, j: int)
    requires 0 <= i <= j <= |b|
    ensures (a + b + c)[|a| + i .. |a| + j] == b[i .. j]
  {
    var s := a + b + c;
    forall m | 0 <= m < j - i
      ensures s[|a| + i .. |a| + j][m] == b[i .. j][m]
    {
      assert s[|a| + i + m] == b[i + m];
    }
  }

  /** A slice inside the first part of a concatenation is a slice of that part. */
  lemma SliceOfFront<T>(a: seq<T>, b: seq<T>, i: int, j: int)
    requires 0 <= i <= j <= |a|
    ensures (a + b)[i .. j] == a[i .. j]
  {
    forall m | 0 <= m < j - i
      ensures (a + b)[i .. j][m] == a[i .. j][m]
    {
      assert (a + b)[i + m] == a[i + m];
    }
  }
}
