/** The pieces of Python's `str` and POSIX `os.path` that the modelled code relies on:
    `str.lower` (on ASCII), `str.rfind`, `os.path.splitext`, `os.path.join` and
    indexing with negative positions. */
module PyStr {
  import opened Wrappers

  /** `c.lower()` for an ASCII character; every other character is left alone. */
  function LowerChar(c: char): char
  {
    if 'A' <= c <= 'Z' then (c as int + 32) as char else c
  }

  /** `s.lower()`, character by character. */
  function Lower(s: string): (r: string)
    ensures |r| == |s|
    ensures forall i :: 0 <= i < |s| ==> r[i] == LowerChar(s[i])
  {
    seq(|s|, i requires 0 <= i < |s| => LowerChar(s[i]))
  }

  /** `s.rfind(c)`: the last position holding `c`, or -1 when there is none. */
  function LastIndexOf(s: string, c: char): (r: int)
    ensures -1 <= r < |s|
    ensures r >= 0 ==> s[r] == c
    ensures forall k :: r < k < |s| ==> s[k] != c
    decreases |s|
  {
    if |s| == 0 then -1
    else if s[|s| - 1] == c then |s| - 1
    else LastIndexOf(s[..|s| - 1], c)
  }

  /** Some character of `p[lo..hi]` is not a dot. */
  predicate HasNonDot(p: string, lo: int, hi: int)
    requires 0 <= lo && hi <= |p|
  {
    exists k :: lo <= k < hi && p[k] != '.'
  }

  /** The last component of `p` (what follows its last '/') holds a character other
      than a dot: the shape of name that `splitext` is willing to give an extension. */
  predicate BaseHasNonDot(p: string)
  {
    HasNonDot(p, LastIndexOf(p, '/') + 1, |p|)
  }

  /** `os.path.splitext(p)` with '/' as separator: the extension starts at the last dot
      of the last component, unless that component is only dots up to there. */
  function SplitExt(p: string): (r: (string, string))
    ensures r.0 + r.1 == p
    ensures r.1 == [] || (r.1[0] == '.' && '.' !in r.1[1..] && '/' !in r.1)
  {
    var sepIndex := LastIndexOf(p, '/');
    var dotIndex := LastIndexOf(p, '.');
    if dotIndex > sepIndex && HasNonDot(p, sepIndex + 1, dotIndex) then
      assert p[..dotIndex] + p[dotIndex..] == p;
      (p[..dotIndex], p[dotIndex..])
    else
      (p, "")
  }

  /** `os.path.join(a, b)` with '/' as separator. */
  function Join(a: string, b: string): (r: string)
    ensures |b| <= |r| && r[|r| - |b|..] == b
  {
    if |b| > 0 && b[0] == '/' then b
    else if |a| == 0 || a[|a| - 1] == '/' then a + b
    else a + "/" + b
  }

  /** `s[i]`, where a negative `i` counts from the end; None where Python raises IndexError. */
  function PyIndex<T>(s: seq<T>, i: int): Option<T>
  {
    if 0 <= i < |s| then Some(s[i])
    else if -|s| <= i < 0 then Some(s[|s| + i])
    else None
  }

  lemma LastIndexOfAppend(a: string, b: string, c: char)
    ensures LastIndexOf(a + b, c) ==
            if LastIndexOf(b, c) >= 0 then |a| + LastIndexOf(b, c) else LastIndexOf(a, c)
  {
    assert forall k :: 0 <= k < |a| ==> (a + b)[k] == a[k];
    assert forall k :: |a| <= k < |a| + |b| ==> (a + b)[k] == b[k - |a|];
    if LastIndexOf(b, c) >= 0 {
      assert (a + b)[|a| + LastIndexOf(b, c)] == c;
    } else if LastIndexOf(a, c) >= 0 {
      assert (a + b)[LastIndexOf(a, c)] == c;
    }
  }

  /** Appending `.e` to a name whose last component has a non-dot character gives a name
      that `splitext` splits back into exactly that name and `.e`. */
  lemma SplitExtAppend(stem: string, e: string)
    requires '.' !in e && '/' !in e
    requires BaseHasNonDot(stem)
    ensures SplitExt(stem + "." + e) == (stem, "." + e)
  {
    var p := stem + "." + e;
    assert p == stem + ("." + e);
    LastIndexOfAppend(stem, "." + e, '/');
    LastIndexOfAppend(stem, "." + e, '.');
    var sepIndex := LastIndexOf(stem, '/');
    LastIndexOfAppend(".", e, '/');
    LastIndexOfAppend(".", e, '.');
    assert LastIndexOf(e, '.') == -1 && LastIndexOf(e, '/') == -1;
    assert LastIndexOf("." + e, '.') == 0;
    assert LastIndexOf(p, '/') == sepIndex;
    assert LastIndexOf(p, '.') == |stem|;
    var k :| sepIndex + 1 <= k < |stem| && stem[k] != '.';
    assert p[k] == stem[k];
    assert p[..|stem|] == stem;
    assert p[|stem|..] == "." + e;
  }

  /** The same with the extension given whole, dot included. */
  lemma SplitExtWith(stem: string, ext: string)
    requires |ext| > 0 && ext[0] == '.' && '.' !in ext[1..] && '/' !in ext[1..]
    requires BaseHasNonDot(stem)
    ensures SplitExt(stem + ext) == (stem, ext)
  {
    SplitExtAppend(stem, ext[1..]);
    assert "." + ext[1..] == ext;
    assert stem + "." + ext[1..] == stem + ext;
  }

  /** Joining a dot-free last component leaves a name without an extension. */
  lemma JoinHasNoExtension(a: string, e: string)
    requires '.' !in e
    ensures SplitExt(Join(a, e)).1 == ""
  {
    var j := Join(a, e);
    if |e| > 0 && e[0] == '/' {
      assert LastIndexOf(j, '.') == -1;
    } else if |a| == 0 {
      assert j == e;
      assert LastIndexOf(j, '.') == -1;
    } else {
      var x := if a[|a| - 1] == '/' then a else a + "/";
      assert j == x + e;
      assert x[|x| - 1] == '/';
      LastIndexOfAppend(x, e, '.');
      LastIndexOfAppend(x, e, '/');
      assert LastIndexOf(e, '.') == -1;
      assert LastIndexOf(x, '/') == |x| - 1;
      assert LastIndexOf(j, '.') < LastIndexOf(j, '/');
    }
  }

  /** Dots and slashes are not letters, so lower-casing leaves their positions alone. */
  lemma LastIndexOfLower(p: string, c: char)
    requires c == '.' || c == '/'
    ensures LastIndexOf(Lower(p), c) == LastIndexOf(p, c)
  {
    var r, q := LastIndexOf(Lower(p), c), LastIndexOf(p, c);
    if q >= 0 {
      assert Lower(p)[q] == c;
    }
    if r >= 0 {
      assert Lower(p)[r] == LowerChar(p[r]);
      assert p[r] == c;
    }
  }

  /** Lower-casing a path lower-cases its stem and its extension and moves nothing. */
  lemma {:induction false} SplitExtLower(p: string)
    ensures SplitExt(Lower(p)) == (Lower(SplitExt(p).0), Lower(SplitExt(p).1))
  {
    var lp := Lower(p);
    LastIndexOfLower(p, '.');
    LastIndexOfLower(p, '/');
    var sepIndex, dotIndex := LastIndexOf(p, '/'), LastIndexOf(p, '.');
    assert forall k :: 0 <= k < |p| ==> (lp[k] == '.' <==> p[k] == '.');
    if dotIndex > sepIndex {
      assert HasNonDot(lp, sepIndex + 1, dotIndex) == HasNonDot(p, sepIndex + 1, dotIndex);
      assert lp[..dotIndex] == Lower(p[..dotIndex]);
      assert lp[dotIndex..] == Lower(p[dotIndex..]);
    }
  }

  /** Lower-casing twice is lower-casing once. */
  lemma LowerIdempotent(s: string)
    ensures Lower(Lower(s)) == Lower(s)
  {
    assert forall i :: 0 <= i < |s| ==> LowerChar(LowerChar(s[i])) == LowerChar(s[i]);
  }

  /** A name that `splitext` gives an extension has a stem whose last component holds a
      character other than a dot, so putting a new extension on that stem splits back. */
  lemma StemOfExtendedName(p: string)
    requires SplitExt(p).1 != ""
    ensures BaseHasNonDot(SplitExt(p).0)
  {
    var (stem, ext) := SplitExt(p);
    var sepIndex, dotIndex := LastIndexOf(p, '/'), LastIndexOf(p, '.');
    assert stem == p[..dotIndex];
    LastIndexOfAppend(stem, ext, '/');
    assert LastIndexOf(stem, '/') == sepIndex;
    var k :| sepIndex + 1 <= k < dotIndex && p[k] != '.';
    assert stem[k] == p[k];
  }
}
