/**
 * The `os.path` functions (POSIX flavour) the Python tools use to name their outputs:
 * `basename`, `dirname`, `join` and `splitext`.
 */
module Paths {

  /** The index of the last occurrence of `c` in `p`, or -1. */
  function LastIndex(p: string, c: char): (r: int)
    ensures -1 <= r < |p|
    ensures r >= 0 ==> p[r] == c
    ensures forall k :: r < k < |p| ==> p[k] != c
    decreases |p|
  {
    if p == [] then -1
    else if p[|p| - 1] == c then |p| - 1
    else LastIndex(p[..|p| - 1], c)
  }

  /** `os.path.basename`: everything after the last '/'. */
  function Basename(p: string): (b: string)
    ensures forall k :: 0 <= k < |b| ==> b[k] != '/'
    ensures |b| <= |p| && p[|p| - |b|..] == b
    ensures |b| == |p| || p[|p| - |b| - 1] == '/'
  {
    p[LastIndex(p, '/') + 1..]
  }

  predicate AllSlashes(s: string) {
    forall k :: 0 <= k < |s| ==> s[k] == '/'
  }

  /** `s.rstrip('/')` */
  function StripTrailingSlashes(s: string): (r: string)
    ensures |r| <= |s| && s[..|r|] == r
    ensures r == [] || r[|r| - 1] != '/'
    ensures forall k :: |r| <= k < |s| ==> s[k] == '/'
    decreases |s|
  {
    if s != [] && s[|s| - 1] == '/' then StripTrailingSlashes(s[..|s| - 1]) else s
  }

  /** `os.path.dirname`: the part before the last '/', without trailing slashes unless it is all slashes. */
  function Dirname(p: string): (d: string)
    ensures d == [] <==> LastIndex(p, '/') < 0
    ensures |d| <= LastIndex(p, '/') + 1 && p[..|d|] == d
    ensures forall k :: |d| <= k <= LastIndex(p, '/') ==> p[k] == '/'
    ensures d == [] || d[|d| - 1] != '/' || AllSlashes(d)
  {
    var head := p[..LastIndex(p, '/') + 1];
    if head != [] && !AllSlashes(head) then StripTrailingSlashes(head) else head
  }

  /** `os.path.join(a, b)` for two components. */
  function Join(a: string, b: string): (r: string)
    ensures |b| > 0 && b[0] == '/' ==> r == b
    ensures !(|b| > 0 && b[0] == '/') ==> |a| + |b| <= |r| <= |a| + |b| + 1 && r[..|a|] == a && r[|r| - |b|..] == b
    ensures !(|b| > 0 && b[0] == '/') && |r| > |a| + |b| ==> a != [] && a[|a| - 1] != '/' && r[|a|] == '/'
  {
    if |b| > 0 && b[0] == '/' then b
    else if a == [] || a[|a| - 1] == '/' then a + b
    else a + "/" + b
  }

  /** Whether the last '.' after the last '/' is preceded, within the file name, by a character other than '.'. */
  predicate HasExtension(p: string) {
    var s, d := LastIndex(p, '/'), LastIndex(p, '.');
    d > s && exists k :: s < k < d && p[k] != '.'
  }

  /** `os.path.splitext(p)[0]`: `p` without its extension; a name made of leading dots has none. */
  function StripExtension(p: string): (root: string)
    ensures |root| <= |p| && p[..|root|] == root
    ensures !HasExtension(p) ==> root == p
  {
    if HasExtension(p) then p[..LastIndex(p, '.')] else p
  }

  /** `os.path.splitext(p)[1]` */
  function Extension(p: string): (ext: string)
    ensures StripExtension(p) + ext == p
    ensures ext == [] || (ext[0] == '.' && forall k :: 0 < k < |ext| ==> ext[k] != '.' && ext[k] != '/')
  {
    var root := StripExtension(p);
    assert p == root + p[|root|..];
    p[|root|..]
  }

  /** A dot followed by characters that are neither '.' nor '/': what `splitext` splits off. */
  predicate SimpleExtension(ext: string) {
    |ext| >= 1 && ext[0] == '.' && forall k :: 0 < k < |ext| ==> ext[k] != '.' && ext[k] != '/'
  }

  /** The file name (after the last '/') has a character other than '.'. */
  predicate NamedStem(stem: string) {
    exists k :: LastIndex(stem, '/') < k < |stem| && stem[k] != '.'
  }

  /**
   * Appending an extension to a stem whose file name has a character other than '.' gives that
   * stem back as the root.
   */
  lemma StripAppendedExtension(stem: string, ext: string)
    requires SimpleExtension(ext) && NamedStem(stem)
    ensures StripExtension(stem + ext) == stem
  {
    var p := stem + ext;
    var w :| LastIndex(stem, '/') < w < |stem| && stem[w] != '.';
    var dot, slash := LastIndex(ext, '.'), LastIndex(ext, '/');
    assert dot == 0;
    assert slash < 0;
    LastIndexAppend(stem, ext, '.');
    LastIndexAppend(stem, ext, '/');
    assert p[w] == stem[w];
    assert HasExtension(p);
    assert p[..|stem|] == stem;
  }

  /** The last occurrence in `a + b`: in `b` if there is one there, else in `a`. */
  lemma {:induction false} LastIndexAppend(a: string, b: string, c: char)
    ensures LastIndex(b, c) >= 0 ==> LastIndex(a + b, c) == |a| + LastIndex(b, c)
    ensures LastIndex(b, c) < 0 ==> LastIndex(a + b, c) == LastIndex(a, c)
    decreases |b|
  {
    if b == [] {
      assert a + b == a;
    } else {
      assert (a + b)[..|a + b| - 1] == a + b[..|b| - 1];
      if b[|b| - 1] != c {
        LastIndexAppend(a, b[..|b| - 1], c);
      }
    }
  }
}
