/**
 * Node's `path.extname` (POSIX flavour), which the plugin uses to decide
 * whether a file is HTML: the part of the last path segment from its last
 * '.', ignoring trailing slashes, and empty when the segment has no '.',
 * starts with its only significant '.', or is "..".
 */
module NodePath {
  import opened Strings

  /** Index of the last occurrence of `c` in `s`, or -1. */
  function LastIndexOf(s: string, c: char): (i: int)
    ensures -1 <= i < |s|
    ensures i >= 0 ==> s[i] == c
    ensures forall j :: i < j < |s| ==> s[j] != c
    decreases |s|
  {
    if |s| == 0 then -1
    else if s[|s| - 1] == c then |s| - 1
    else LastIndexOf(s[..|s| - 1], c)
  }

  /** `p` without its trailing slashes. */
  function TrimTrailingSlashes(p: string): (t: string)
    ensures |t| <= |p| && t == p[..|t|]
    ensures t == [] || t[|t| - 1] != '/'
    ensures forall j :: |t| <= j < |p| ==> p[j] == '/'
    decreases |p|
  {
    if |p| > 0 && p[|p| - 1] == '/' then TrimTrailingSlashes(p[..|p| - 1]) else p
  }

  /** The last segment of a path that has no trailing slash. */
  function Basename(t: string): (b: string)
    ensures |b| <= |t| && b == t[|t| - |b|..]
    ensures '/' !in b
  {
    t[LastIndexOf(t, '/') + 1..]
  }

  /** The extension of a last segment: from its last '.', unless that is its first character or the segment is "..". */
  function SegmentExtension(b: string): string {
    var d := LastIndexOf(b, '.');
    if d <= 0 || b == ".." then "" else b[d..]
  }

  /** What an extension of a last segment looks like: a suffix of it, starting with its only '.', after a non-empty name. */
  lemma SegmentExtensionShape(b: string)
    ensures var e := SegmentExtension(b);
            |e| <= |b| && e == b[|b| - |e|..] &&
            (e != "" ==> |e| < |b| && e[0] == '.' && '.' !in e[1..])
  {
    var d := LastIndexOf(b, '.');
    if 0 < d && b != ".." {
      var e := b[d..];
      forall j | 1 <= j < |e| ensures e[j] != '.' {
        assert e[j] == b[d + j];
      }
    }
  }

  /**
   * `path.extname(p)`: empty, or a '.' followed by no other '.' and no '/',
   * ending the last segment of `p` (trailing slashes ignored) and shorter
   * than that segment.
   */
  function Extname(p: string): (e: string)
    ensures EndsWith(TrimTrailingSlashes(p), e)
    ensures e != "" ==> e[0] == '.' && '.' !in e[1..] && '/' !in e
    ensures e != "" ==> |e| < |Basename(TrimTrailingSlashes(p))|
  {
    var t := TrimTrailingSlashes(p);
    var b := Basename(t);
    SegmentExtensionShape(b);
    var e := SegmentExtension(b);
    SuffixOfSuffix(t, b, e);
    e
  }

  lemma SuffixOfSuffix(t: string, b: string, e: string)
    requires EndsWith(t, b) && '/' !in b
    requires EndsWith(b, e)
    ensures EndsWith(t, e) && '/' !in e
  {
    forall j | 0 <= j < |e| ensures e[j] == t[|t| - |e| + j] && e[j] != '/' {
      assert e[j] == b[|b| - |e| + j];
    }
  }

  /** An extension as `extname` can return it: a '.' and at least one more character, none of them '.' or '/'. */
  predicate IsExtension(ext: string) {
    |ext| >= 2 && ext[0] == '.' && forall i :: 1 <= i < |ext| ==> ext[i] != '.' && ext[i] != '/'
  }

  /** A path without trailing slashes whose last segment is a non-empty name followed by `ext`. */
  predicate EndsInName(t: string, ext: string) {
    |t| > |ext| && t[|t| - |ext|..] == ext && t[|t| - |ext| - 1] != '/'
  }

  predicate EndsInHtmlName(t: string) {
    EndsInName(t, ".html")
  }

  /** `path.extname(p) === ext` for an extension `ext`, characterised on the path itself. */
  lemma ExtnameIs(p: string, ext: string)
    requires IsExtension(ext)
    ensures Extname(p) == ext <==> EndsInName(TrimTrailingSlashes(p), ext)
  {
    var t := TrimTrailingSlashes(p);
    if EndsInName(t, ext) {
      NameHasExtension(t, ext);
    }
    if Extname(p) == ext {
      ExtensionEndsName(t, ext);
    }
  }

  lemma NameHasExtension(t: string, ext: string)
    requires IsExtension(ext) && EndsInName(t, ext)
    ensures SegmentExtension(Basename(t)) == ext
  {
    var n := |ext|;
    forall j | |t| - n - 1 <= j < |t| ensures t[j] != '/' {
      if j >= |t| - n {
        assert t[j] == ext[j - (|t| - n)];
      }
    }
    var b := Basename(t);
    assert b[|b| - n..] == ext;
    LastDotStartsExtension(b, ext);
  }

  lemma LastDotStartsExtension(b: string, ext: string)
    requires IsExtension(ext) && |b| > |ext| && b[|b| - |ext|..] == ext
    ensures LastIndexOf(b, '.') == |b| - |ext|
  {
    var n := |ext|;
    forall j | |b| - n <= j < |b| ensures b[j] == ext[j - (|b| - n)] {
    }
  }

  lemma ExtensionEndsName(t: string, ext: string)
    requires IsExtension(ext) && SegmentExtension(Basename(t)) == ext
    ensures EndsInName(t, ext)
  {
    var b := Basename(t);
    var d := LastIndexOf(b, '.');
    var n := |ext|;
    assert t[|t| - n - 1] == b[d - 1];
    assert t[|t| - n..] == b[d..];
  }

  /** The eligibility test `path.extname(p) === '.html'`, characterised on the path itself. */
  lemma ExtnameIsHtml(p: string)
    ensures Extname(p) == ".html" <==> EndsInHtmlName(TrimTrailingSlashes(p))
  {
    ExtnameIs(p, ".html");
  }
}
