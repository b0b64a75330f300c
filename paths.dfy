/**
 * Filesystem path strings as lists of segments. Splitting at the separators of a
 * platform, dropping empty and "." segments and joining again with the native
 * separator is the part of Go's `filepath.Join`/`filepath.Clean` that the model
 * relies on.
 */
module Paths {

  /** The platform flag of a Go GOOS value: only "windows" changes the path rules. */
  function IsWindows(platform: string): bool {
    platform == "windows"
  }

  /** `/` separates segments everywhere; `\` does so on windows only. */
  predicate IsSeparator(c: char, windows: bool) {
    c == '/' || (windows && c == '\\')
  }

  /** The separator the platform writes between segments (Go's os.PathSeparator). */
  function NativeSeparator(windows: bool): (sep: char)
    ensures IsSeparator(sep, windows)
    ensures sep != '~'
  {
    if windows then '\\' else '/'
  }

  /** `seg` holds no separator of the platform. */
  predicate NoSeparator(seg: string, windows: bool) {
    forall j :: 0 <= j < |seg| ==> !IsSeparator(seg[j], windows)
  }

  /**
   * The pieces of `s` between separators, empty pieces included, read one
   * character at a time: a separator opens a new piece, any other character
   * extends the first piece of the rest.
   */
  function Segments(s: string, windows: bool): (segs: seq<string>)
    ensures |segs| >= 1
  {
    if |s| == 0 then [""]
    else
      var r := Segments(s[1..], windows);
      if IsSeparator(s[0], windows) then [""] + r else [[s[0]] + r[0]] + r[1..]
  }

  /** A segment that names a directory entry: neither empty nor ".". */
  predicate IsNamed(seg: string) {
    seg != "" && seg != "."
  }

  /** The segments that name an entry, in their order. */
  function Clean(segs: seq<string>): seq<string> {
    if |segs| == 0 then []
    else if IsNamed(segs[0]) then [segs[0]] + Clean(segs[1..])
    else Clean(segs[1..])
  }

  /** A path in canonical form: named segments without separators. */
  predicate Canonical(segs: seq<string>, windows: bool) {
    forall seg <- segs :: IsNamed(seg) && NoSeparator(seg, windows)
  }

  /** The canonical segments a path string names. */
  function CleanPath(s: string, windows: bool): (segs: seq<string>)
    ensures Canonical(segs, windows)
  {
    CleanSegmentsCanonical(s, windows);
    Clean(Segments(s, windows))
  }

  /** The segments written one after another with `sep` between neighbours. */
  function JoinWith(segs: seq<string>, sep: char): string {
    if |segs| == 0 then ""
    else if |segs| == 1 then segs[0]
    else segs[0] + [sep] + JoinWith(segs[1..], sep)
  }

  /** Reference definition: every separator of `s` replaced by the native one. */
  function MapSeparators(s: string, windows: bool): (r: string) {
    if |s| == 0 then ""
    else [if IsSeparator(s[0], windows) then NativeSeparator(windows) else s[0]] + MapSeparators(s[1..], windows)
  }

  lemma NoSeparatorCons(c: char, seg: string, windows: bool)
    requires !IsSeparator(c, windows) && NoSeparator(seg, windows)
    ensures NoSeparator([c] + seg, windows)
  {
    forall j | 0 <= j < |[c] + seg|
      ensures !IsSeparator(([c] + seg)[j], windows)
    {
      if j > 0 {
        assert ([c] + seg)[j] == seg[j - 1];
      }
    }
  }

  /** No segment holds a separator. */
  lemma {:induction false} SegmentsHaveNoSeparator(s: string, windows: bool)
    ensures forall seg <- Segments(s, windows) :: NoSeparator(seg, windows)
  {
    if |s| > 0 {
      SegmentsHaveNoSeparator(s[1..], windows);
      var r := Segments(s[1..], windows);
      if !IsSeparator(s[0], windows) {
        assert r[0] in r;
        NoSeparatorCons(s[0], r[0], windows);
      }
    }
  }

  /** A character absent from a path is absent from each of its segments. */
  lemma {:induction false} SegmentsAvoid(s: string, windows: bool, x: char)
    requires x !in s
    ensures forall seg <- Segments(s, windows) :: x !in seg
  {
    if |s| > 0 {
      assert x !in s[1..];
      SegmentsAvoid(s[1..], windows, x);
    }
  }

  /** Cleaning keeps only named segments, each taken from the input. */
  lemma {:induction false} CleanKeepsNamed(segs: seq<string>)
    ensures forall seg <- Clean(segs) :: IsNamed(seg) && seg in segs
  {
    if |segs| > 0 {
      CleanKeepsNamed(segs[1..]);
    }
  }

  /** Every path names a canonical segment list. */
  lemma CleanSegmentsCanonical(s: string, windows: bool)
    ensures Canonical(Clean(Segments(s, windows)), windows)
  {
    SegmentsHaveNoSeparator(s, windows);
    CleanKeepsNamed(Segments(s, windows));
  }

  /** Joining adds only the separator: a character in no segment, and not the separator, is absent. */
  lemma {:induction false} JoinWithAvoid(segs: seq<string>, sep: char, x: char)
    requires x != sep && forall seg <- segs :: x !in seg
    ensures x !in JoinWith(segs, sep)
  {
    if |segs| > 1 {
      JoinWithAvoid(segs[1..], sep, x);
    }
  }

  lemma Associative<T>(x: seq<T>, y: seq<T>, z: seq<T>)
    ensures x + (y + z) == (x + y) + z
  {
  }

  lemma HeadOfAppend<T>(l: seq<T>, r: seq<T>)
    requires |l| >= 1
    ensures (l + r)[0] == l[0] && (l + r)[1..] == l[1..] + r
  {
  }

  /** A character put in front of the first segment joins in front of the whole. */
  lemma JoinWithHead(h: char, r: seq<string>, sep: char)
    requires |r| >= 1
    ensures JoinWith([[h] + r[0]] + r[1..], sep) == [h] + JoinWith(r, sep)
  {
    var x := [[h] + r[0]] + r[1..];
    assert x[1..] == r[1..];
    if |r| > 1 {
      assert JoinWith(r, sep) == r[0] + [sep] + JoinWith(r[1..], sep);
    }
  }

  /** Splitting and re-joining with the native separator only normalises the separators. */
  lemma {:induction false} JoinSegments(s: string, windows: bool)
    ensures JoinWith(Segments(s, windows), NativeSeparator(windows)) == MapSeparators(s, windows)
  {
    if |s| > 0 {
      var sep := NativeSeparator(windows);
      JoinSegments(s[1..], windows);
      var r := Segments(s[1..], windows);
      if IsSeparator(s[0], windows) {
        assert ([""] + r)[1..] == r;
      } else {
        JoinWithHead(s[0], r, sep);
      }
    }
  }

  lemma AroundTail(a: string, c: char, b: string)
    requires |a| > 0
    ensures (a + [c] + b)[0] == a[0] && (a + [c] + b)[1..] == a[1..] + [c] + b
  {
  }

  /** A separator splits a path into the segments of its two sides. */
  lemma {:induction false} SegmentsAround(a: string, c: char, b: string, windows: bool)
    requires IsSeparator(c, windows)
    ensures Segments(a + [c] + b, windows) == Segments(a, windows) + Segments(b, windows)
  {
    var right := Segments(b, windows);
    if |a| == 0 {
      assert a + [c] + b == [c] + b;
      assert ([c] + b)[1..] == b;
    } else {
      AroundTail(a, c, b);
      SegmentsAround(a[1..], c, b, windows);
      var left := Segments(a[1..], windows);
      if IsSeparator(a[0], windows) {
        Associative([""], left, right);
      } else {
        HeadOfAppend(left, right);
        Associative([[a[0]] + left[0]], left[1..], right);
      }
    }
  }

  /** A string without separators is a single segment. */
  lemma {:induction false} SegmentsOfName(s: string, windows: bool)
    requires NoSeparator(s, windows)
    ensures Segments(s, windows) == [s]
  {
    if |s| > 0 {
      SegmentsOfName(s[1..], windows);
      assert [s[0]] + s[1..] == s;
    }
  }

  /** Round trip: splitting a native join gives back the segments joined. */
  lemma {:induction false} SegmentsJoin(segs: seq<string>, windows: bool)
    requires |segs| >= 1
    requires forall seg <- segs :: NoSeparator(seg, windows)
    ensures Segments(JoinWith(segs, NativeSeparator(windows)), windows) == segs
  {
    var sep := NativeSeparator(windows);
    SegmentsOfName(segs[0], windows);
    if |segs| > 1 {
      SegmentsJoin(segs[1..], windows);
      SegmentsAround(segs[0], sep, JoinWith(segs[1..], sep), windows);
      assert [segs[0]] + segs[1..] == segs;
    }
  }

  /** Cleaning a concatenation cleans each side. */
  lemma {:induction false} CleanAppend(x: seq<string>, y: seq<string>)
    ensures Clean(x + y) == Clean(x) + Clean(y)
  {
    if |x| > 0 {
      CleanAppend(x[1..], y);
      assert (x + y)[1..] == x[1..] + y;
    } else {
      assert x + y == y;
    }
  }

  /** Cleaning leaves named segments alone. */
  lemma {:induction false} CleanNamed(segs: seq<string>)
    requires forall seg <- segs :: IsNamed(seg)
    ensures Clean(segs) == segs
  {
    if |segs| > 0 {
      CleanNamed(segs[1..]);
      assert [segs[0]] + segs[1..] == segs;
    }
  }

  /** Joining two paths with a separator names the segments of the first, then those of the second. */
  lemma CleanPathAround(a: string, c: char, b: string, windows: bool)
    requires IsSeparator(c, windows)
    ensures CleanPath(a + [c] + b, windows) == CleanPath(a, windows) + CleanPath(b, windows)
  {
    SegmentsAround(a, c, b, windows);
    CleanAppend(Segments(a, windows), Segments(b, windows));
  }

  /** Round trip: a canonical path written out with the native separator reads back as itself. */
  lemma CleanPathJoin(segs: seq<string>, windows: bool)
    requires Canonical(segs, windows)
    ensures CleanPath(JoinWith(segs, NativeSeparator(windows)), windows) == segs
  {
    if |segs| == 0 {
      assert Segments("", windows) == [""];
      assert Clean([""]) == [];
    } else {
      SegmentsJoin(segs, windows);
      CleanNamed(segs);
    }
  }

  /** Go's `filepath.ToSlash`: each native separator becomes `/`. */
  function ToSlash(s: string, windows: bool): (r: string)
    ensures |r| == |s|
  {
    if |s| == 0 then ""
    else [if s[0] == NativeSeparator(windows) then '/' else s[0]] + ToSlash(s[1..], windows)
  }

  /** On windows no backslash survives `ToSlash`. */
  lemma {:induction false} ToSlashRemovesBackslash(s: string)
    ensures '\\' !in ToSlash(s, true)
  {
    if |s| > 0 {
      ToSlashRemovesBackslash(s[1..]);
    }
  }

  /** Elsewhere `ToSlash` changes nothing, the native separator being `/` already. */
  lemma {:induction false} ToSlashPosix(s: string)
    ensures ToSlash(s, false) == s
  {
    if |s| > 0 {
      ToSlashPosix(s[1..]);
      assert [s[0]] + s[1..] == s;
    }
  }

  /** `ToSlash` only rewrites separators, so the segments stay the same. */
  lemma {:induction false} SegmentsToSlash(s: string, windows: bool)
    ensures Segments(ToSlash(s, windows), windows) == Segments(s, windows)
  {
    if |s| > 0 {
      SegmentsToSlash(s[1..], windows);
      var t := ToSlash(s, windows);
      assert t[1..] == ToSlash(s[1..], windows);
      assert IsSeparator(t[0], windows) <==> IsSeparator(s[0], windows);
    }
  }

  /** A leading separator adds no segment that names an entry. */
  lemma RootedCleanPath(x: string, windows: bool)
    ensures CleanPath("/" + x, windows) == CleanPath(x, windows)
  {
    assert "/" + x == "" + ['/'] + x;
    CleanPathAround("", '/', x, windows);
    assert Segments("", windows) == [""];
    assert Clean([""]) == [];
  }

  /** A single name is one canonical segment. */
  lemma NameCleanPath(x: string, windows: bool)
    requires IsNamed(x) && NoSeparator(x, windows)
    ensures CleanPath(x, windows) == [x]
  {
    SegmentsOfName(x, windows);
    CleanNamed([x]);
  }
}
