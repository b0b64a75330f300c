/**
 * Home-directory shorthand of package furl (pkg/furl): detecting a leading `~/`
 * (or `~\` on windows) and expanding it to the current user's home directory.
 * The running platform and the home directory lookup are parameters: `platform`
 * is Go's GOOS value and `home` is None when the lookup fails.
 */
module Tilde {
  import opened Wrappers
  import opened Paths

  /** The one way expansion fails: the home directory cannot be determined. */
  datatype TildeError = HomeDirectoryLookupError

  /** Does `path` start with `~` and a separator the platform accepts? */
  function StartsWithCurrentUserDirectoryAsTilde(path: string, platform: string): (b: bool)
    ensures b <==> |path| >= 2 && (path[..2] == "~/" || (platform == "windows" && path[..2] == "~\\"))
  {
    |path| >= 2 && path[0] == '~' && IsSeparator(path[1], IsWindows(platform))
  }

  /**
   * Replaces a recognised two-character prefix with the home directory and joins
   * the named segments of the rest onto it with the native separator; any other
   * path comes back as it is.
   */
  function ResolveTilde(path: string, platform: string, home: Option<string>): (r: Result<string, TildeError>)
    ensures r.Err? <==> StartsWithCurrentUserDirectoryAsTilde(path, platform) && home.None?
  {
    if !StartsWithCurrentUserDirectoryAsTilde(path, platform) then Ok(path)
    else
      match home
      case None => Err(HomeDirectoryLookupError)
      case Some(dir) =>
        var sep := NativeSeparator(IsWindows(platform));
        var rest := CleanPath(path[2..], IsWindows(platform));
        Ok(if rest == [] then dir else dir + [sep] + JoinWith(rest, sep))
  }

  /** A remainder whose every segment names an entry: no doubled separators, no ".". */
  predicate IsCleanRelative(s: string, platform: string) {
    forall seg <- Segments(s, IsWindows(platform)) :: IsNamed(seg)
  }

  /** `~/` is the shorthand on every platform. */
  lemma SlashAcceptedEverywhere(rest: string, platform: string)
    ensures StartsWithCurrentUserDirectoryAsTilde("~/" + rest, platform)
  {
    assert ("~/" + rest)[..2] == "~/";
  }

  /** `~\` is the shorthand exactly on windows. */
  lemma BackslashAcceptedOnlyOnWindows(rest: string, platform: string)
    ensures StartsWithCurrentUserDirectoryAsTilde("~\\" + rest, platform) <==> platform == "windows"
  {
    assert ("~\\" + rest)[..2] == "~\\";
  }

  /** The four platform cases pinned by the package's tests. */
  lemma PlatformExamples()
    ensures StartsWithCurrentUserDirectoryAsTilde("~/", "darwin")
    ensures !StartsWithCurrentUserDirectoryAsTilde("~\\", "darwin")
    ensures StartsWithCurrentUserDirectoryAsTilde("~\\", "windows")
    ensures StartsWithCurrentUserDirectoryAsTilde("~/", "windows")
  {
    SlashAcceptedEverywhere("", "darwin");
    SlashAcceptedEverywhere("", "windows");
    BackslashAcceptedOnlyOnWindows("", "darwin");
    BackslashAcceptedOnlyOnWindows("", "windows");
  }

  /** A path without the shorthand is returned unchanged, whatever the home lookup would give. */
  lemma ResolveTildeLeavesOthersUnchanged(path: string, platform: string, home: Option<string>)
    requires !StartsWithCurrentUserDirectoryAsTilde(path, platform)
    ensures ResolveTilde(path, platform, home) == Ok(path)
  {
  }

  /** The two unchanged paths of the tests: no tilde prefix, and a trailing embedded `~`. */
  lemma ResolveTildeUnchangedExamples(platform: string, home: Option<string>)
    ensures ResolveTilde("look/matilde/no/tilde", platform, home) == Ok("look/matilde/no/tilde")
    ensures ResolveTilde("look/matilde/thereisa/~", platform, home) == Ok("look/matilde/thereisa/~")
  {
    ResolveTildeLeavesOthersUnchanged("look/matilde/no/tilde", platform, home);
    ResolveTildeLeavesOthersUnchanged("look/matilde/thereisa/~", platform, home);
  }

  /** Expansion leaves no `~` behind unless the home directory or the remainder brought one. */
  lemma ResolveTildeRemovesTilde(path: string, platform: string, dir: string)
    requires StartsWithCurrentUserDirectoryAsTilde(path, platform)
    requires '~' !in dir && '~' !in path[2..]
    ensures ResolveTilde(path, platform, Some(dir)).Ok?
    ensures '~' !in ResolveTilde(path, platform, Some(dir)).value
  {
    var sep := NativeSeparator(IsWindows(platform));
    var rest := CleanPath(path[2..], IsWindows(platform));
    SegmentsAvoid(path[2..], IsWindows(platform), '~');
    CleanKeepsNamed(Segments(path[2..], IsWindows(platform)));
    JoinWithAvoid(rest, sep, '~');
  }

  /**
   * For a clean remainder the result is the home directory, a native separator and
   * the remainder with its separators made native.
   */
  lemma ResolveTildeKeepsRemainder(path: string, platform: string, dir: string)
    requires StartsWithCurrentUserDirectoryAsTilde(path, platform)
    requires IsCleanRelative(path[2..], platform)
    ensures ResolveTilde(path, platform, Some(dir))
            == Ok(dir + [NativeSeparator(IsWindows(platform))] + MapSeparators(path[2..], IsWindows(platform)))
  {
    var segs := Segments(path[2..], IsWindows(platform));
    CleanNamed(segs);
    JoinSegments(path[2..], IsWindows(platform));
    assert CleanPath(path[2..], IsWindows(platform)) == segs != [];
  }

  /** The bare shorthand expands to the home directory with no trailing separator. */
  lemma ResolveTildeBareShorthand(path: string, platform: string, dir: string)
    requires StartsWithCurrentUserDirectoryAsTilde(path, platform) && |path| == 2
    ensures ResolveTilde(path, platform, Some(dir)) == Ok(dir)
  {
    assert path[2..] == "";
    assert Segments("", IsWindows(platform)) == [""];
    assert Clean([""]) == [];
  }

  /**
   * The two expansion cases of the tests: `~` + native separator + `some` + native
   * separator + `location`, and `~/some/location`, both expand to the home directory
   * followed by `some` and `location` joined with the native separator.
   */
  lemma ResolveTildeExamples(platform: string, dir: string)
    requires '~' !in dir
    ensures var sep := NativeSeparator(IsWindows(platform));
            var expected := dir + [sep] + "some" + [sep] + "location";
            && ResolveTilde("~/some/location", platform, Some(dir)) == Ok(expected)
            && ResolveTilde("~" + [sep] + "some" + [sep] + "location", platform, Some(dir)) == Ok(expected)
            && '~' !in expected
  {
    var sep := NativeSeparator(IsWindows(platform));
    SlashExample("~/some/location");
    ResolveTildeTwoNames("~/some/location", '/', "some", "location", platform, dir);
    ResolveTildeTwoNames("~" + [sep] + "some" + [sep] + "location", sep, "some", "location", platform, dir);
    assert '~' !in "some" && '~' !in "location";
  }

  lemma SlashExample(path: string)
    requires path == "~/some/location"
    ensures path == "~" + ['/'] + "some" + ['/'] + "location"
  {
  }

  /** Two names around a separator clean to exactly those two names. */
  lemma TwoNamesCleanPath(a: string, c: char, b: string, windows: bool)
    requires IsSeparator(c, windows)
    requires IsNamed(a) && NoSeparator(a, windows)
    requires IsNamed(b) && NoSeparator(b, windows)
    ensures CleanPath(a + [c] + b, windows) == [a, b]
  {
    SegmentsAround(a, c, b, windows);
    SegmentsOfName(a, windows);
    SegmentsOfName(b, windows);
    CleanNamed([a, b]);
  }

  /** `~`, a separator, a name, the same separator and a name expands to the two names joined natively. */
  lemma ResolveTildeTwoNames(path: string, c: char, a: string, b: string, platform: string, dir: string)
    requires IsSeparator(c, IsWindows(platform))
    requires IsNamed(a) && NoSeparator(a, IsWindows(platform))
    requires IsNamed(b) && NoSeparator(b, IsWindows(platform))
    requires path == "~" + [c] + a + [c] + b
    ensures var sep := NativeSeparator(IsWindows(platform));
            ResolveTilde(path, platform, Some(dir)) == Ok(dir + [sep] + a + [sep] + b)
  {
    var windows := IsWindows(platform);
    var sep := NativeSeparator(windows);
    assert path[2..] == a + [c] + b;
    assert path[0] == '~' && path[1] == c;
    TwoNamesCleanPath(a, c, b, windows);
    assert JoinWith([a, b], sep) == a + [sep] + b;
    assert dir + [sep] + (a + [sep] + b) == dir + [sep] + a + [sep] + b;
  }
}
