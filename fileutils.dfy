/**
 * Home-directory shorthand of the older root package fileutils. Detection follows
 * the same platform rule as package furl; expansion keeps the remainder after the
 * two-character prefix exactly as written, which is what that package's tests ask
 * of it on every platform (the result ends with `path[2:]`).
 */
module FileUtils {
  import opened Wrappers
  import opened Paths
  import Tilde

  /** Does `path` start with `~` and a separator the platform accepts? */
  function StartsWithCurrentUserDirectoryAsTilde(path: string, platform: string): (b: bool)
    ensures b <==> |path| >= 2 && (path[..2] == "~/" || (platform == "windows" && path[..2] == "~\\"))
  {
    |path| >= 2 && path[0] == '~' && IsSeparator(path[1], IsWindows(platform))
  }

  /** Replaces a recognised prefix with the home directory and a native separator; other paths are returned as they are. */
  function ResolveTilde(path: string, platform: string, home: Option<string>): (r: Result<string, Tilde.TildeError>)
    ensures r.Err? <==> StartsWithCurrentUserDirectoryAsTilde(path, platform) && home.None?
  {
    if !StartsWithCurrentUserDirectoryAsTilde(path, platform) then Ok(path)
    else
      match home
      case None => Err(Tilde.HomeDirectoryLookupError)
      case Some(dir) =>
        Ok(if |path| == 2 then dir else dir + [NativeSeparator(IsWindows(platform))] + path[2..])
  }

  /** Both copies accept exactly the same prefixes. */
  lemma SameDetectionAsFurl(path: string, platform: string)
    ensures StartsWithCurrentUserDirectoryAsTilde(path, platform)
            == Tilde.StartsWithCurrentUserDirectoryAsTilde(path, platform)
  {
  }

  /** The four platform cases pinned by the root package's tests. */
  lemma PlatformExamples()
    ensures StartsWithCurrentUserDirectoryAsTilde("~/", "darwin")
    ensures !StartsWithCurrentUserDirectoryAsTilde("~\\", "darwin")
    ensures StartsWithCurrentUserDirectoryAsTilde("~\\", "windows")
    ensures StartsWithCurrentUserDirectoryAsTilde("~/", "windows")
  {
    Tilde.PlatformExamples();
  }

  /** Expansion keeps the remainder as a suffix and adds no `~` of its own. */
  lemma ResolveTildeKeepsSuffix(path: string, platform: string, dir: string)
    requires StartsWithCurrentUserDirectoryAsTilde(path, platform)
    ensures var r := ResolveTilde(path, platform, Some(dir));
            && r.Ok?
            && |r.value| >= |path| - 2
            && r.value[|r.value| - (|path| - 2)..] == path[2..]
            && ('~' in r.value ==> '~' in dir || '~' in path[2..])
  {
    var r := ResolveTilde(path, platform, Some(dir)).value;
    if |path| > 2 {
      assert r == (dir + [NativeSeparator(IsWindows(platform))]) + path[2..];
    }
  }

  /** The two-character shorthand alone expands to the home directory itself, with no separator after it. */
  lemma ResolveTildeBareShorthand(path: string, platform: string, dir: string)
    requires StartsWithCurrentUserDirectoryAsTilde(path, platform) && |path| == 2
    ensures ResolveTilde(path, platform, Some(dir)) == Ok(dir)
  {
  }

  /** A path without the shorthand, including the two of the tests, is returned unchanged. */
  lemma ResolveTildeLeavesOthersUnchanged(path: string, platform: string, home: Option<string>)
    requires !StartsWithCurrentUserDirectoryAsTilde(path, platform)
            || path in {"look/matilde/no/tilde", "look/matilde/thereisa/~"}
    ensures ResolveTilde(path, platform, home) == Ok(path)
  {
  }

  /**
   * Where the remainder is already clean and written with native separators, the
   * root copy and the furl copy expand to the same path.
   */
  lemma AgreesWithFurlOnNativeRemainder(path: string, platform: string, home: Option<string>)
    requires StartsWithCurrentUserDirectoryAsTilde(path, platform)
    requires Tilde.IsCleanRelative(path[2..], platform)
    requires MapSeparators(path[2..], IsWindows(platform)) == path[2..]
    ensures ResolveTilde(path, platform, home) == Tilde.ResolveTilde(path, platform, home)
  {
    if home.Some? {
      Tilde.ResolveTildeKeepsRemainder(path, platform, home.value);
      assert Segments(path[2..], IsWindows(platform)) != [""];
    }
  }

  /** The expansion case of the tests: `~/some/location` loses its `~` and ends with `some/location`. */
  lemma ResolveTildeExample(path: string, platform: string, dir: string)
    requires path == "~/some/location" && '~' !in dir
    ensures var r := ResolveTilde(path, platform, Some(dir));
            && r.Ok?
            && '~' !in r.value
            && r.value[|r.value| - |path[2..]|..] == path[2..]
  {
    SomeLocation(path);
    ResolveTildeKeepsSuffix(path, platform, dir);
  }

  lemma SomeLocation(path: string)
    requires path == "~/some/location"
    ensures |path| > 2 && path[0] == '~' && path[1] == '/'
    ensures path[2..] == "some/location" && '~' !in path[2..]
  {
  }
}
