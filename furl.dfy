/**
 * Location reading of package furl (pkg/furl): `Read(file, base)` classifies a
 * location as a URL, an absolute path or a path relative to `base`, resolves it,
 * and reads it from disk or dispatches it by scheme. The environment is passed in:
 * the working directory `cwd`, the filesystem `fs` (canonical path to content) and
 * `fetch`, which stands for the HTTP GET that this model does not describe.
 * Classification follows POSIX paths: `/` separates segments and an absolute path
 * starts with `/`.
 */
module Furl {
  import opened Wrappers
  import opened Paths
  import opened Urls

  newtype byte = x: int | 0 <= x < 256

  type Bytes = seq<byte>

  /** Files by canonical absolute path. */
  type FileSystem = map<seq<string>, Bytes>

  /** Whether the path functions apply windows rules: classification follows POSIX, so it is off. */
  const OnWindows: bool := false

  /** Failures of an HTTP GET, which comes from outside the model. */
  datatype FetchError = Timeout(detail: string) | NetworkError(detail: string)

  datatype ReadError =
    | NotFound(path: seq<string>)
    | UnsupportedScheme(scheme: string, url: string)
    | FetchFailed(cause: FetchError)

  /**
   * The text of an error, as Go's `Error()` gives it. An unsupported scheme is
   * reported with the fixed prefix, then the scheme, and the URL text at the end.
   */
  function Message(e: ReadError): (m: string)
    ensures e.UnsupportedScheme? ==>
              && |m| >= |"unsupported URL scheme "| + |e.scheme| + |e.url|
              && m[..|"unsupported URL scheme "|] == "unsupported URL scheme "
              && m[|"unsupported URL scheme "|..|"unsupported URL scheme "| + |e.scheme|] == e.scheme
              && m[|m| - |e.url|..] == e.url
    ensures e.NotFound? ==>
              |m| >= |": no such file or directory"| && m[|m| - |": no such file or directory"|..] == ": no such file or directory"
  {
    match e
    case NotFound(path) => "open /" + JoinWith(path, '/') + ": no such file or directory"
    case UnsupportedScheme(scheme, url) => "unsupported URL scheme " + scheme + " in " + url
    case FetchFailed(cause) => cause.detail
  }

  /** Go's `filepath.IsAbs` on POSIX: the path starts with `/`. An absolute path is never a URL. */
  predicate IsAbs(p: string)
    ensures IsAbs(p) ==> ParseWithScheme(p) == None
  {
    |p| > 0 && p[0] == '/'
  }

  /** Where a location leads: a file on disk, or a URL to read by scheme. */
  datatype Target = LocalFile(path: seq<string>) | Remote(url: Url)

  /** A rooted URL path naming the segments of `p` followed by those of `location`. */
  function JoinUrlPath(p: string, location: string): (r: string)
    ensures |r| > 0 && r[0] == '/' && !DoubleSlash(r)
    ensures CleanPath(r, OnWindows) == CleanPath(p, OnWindows) + CleanPath(location, OnWindows)
  {
    var segs := CleanPath(p, OnWindows) + CleanPath(location, OnWindows);
    RootedJoin(segs);
    "/" + JoinWith(segs, '/')
  }

  lemma RootedJoin(segs: seq<string>)
    requires Canonical(segs, OnWindows)
    ensures var r := "/" + JoinWith(segs, '/');
            && CleanPath(r, OnWindows) == segs
            && !DoubleSlash(r)
  {
    var joined := JoinWith(segs, '/');
    assert "/" + joined == "" + ['/'] + joined;
    CleanPathAround("", '/', joined, OnWindows);
    assert Segments("", OnWindows) == [""];
    CleanPathJoin(segs, OnWindows);
    if |segs| > 0 {
      assert IsNamed(segs[0]) && NoSeparator(segs[0], OnWindows);
      assert joined[0] == segs[0][0];
    }
  }

  /** The ordered decision list: URL, then absolute path, then relative to `base`. */
  function Resolve(location: string, base: string, cwd: string): (t: Target)
    ensures t.LocalFile? ==> Canonical(t.path, OnWindows)
    ensures t.Remote? ==> WellFormed(t.url)
  {
    match ParseWithScheme(location)
    case Some(u) => Remote(u)
    case None =>
      if IsAbs(location) then LocalFile(CleanPath(location, OnWindows))
      else if base == "" then LocalFile(CleanPath(cwd, OnWindows) + CleanPath(location, OnWindows))
      else
        match ParseWithScheme(base)
        case Some(b) => Remote(b.(path := JoinUrlPath(b.path, location)))
        case None =>
          if IsAbs(base) then LocalFile(CleanPath(base, OnWindows) + CleanPath(location, OnWindows))
          else LocalFile(CleanPath(cwd, OnWindows) + CleanPath(base, OnWindows) + CleanPath(location, OnWindows))
  }

  /** The disk read: the content stored under `path`, or NotFound. */
  function ReadFile(path: seq<string>, fs: FileSystem): (r: Result<Bytes, ReadError>)
    ensures r.Ok? <==> path in fs
    ensures r.Ok? ==> r.value == fs[path]
    ensures r.Err? ==> r.error == NotFound(path)
  {
    if path in fs then Ok(fs[path]) else Err(NotFound(path))
  }

  /** Dispatch by scheme: `file` reads the disk, `http` and `https` fetch, anything else fails. */
  function ReadUrl(u: Url, timeout: nat, fs: FileSystem, fetch: (Url, nat) -> Result<Bytes, FetchError>)
    : (r: Result<Bytes, ReadError>)
    ensures (r.Err? && r.error.UnsupportedScheme?) <==> u.scheme !in {"file", "http", "https"}
    ensures r.Err? && r.error.UnsupportedScheme? ==> r.error == UnsupportedScheme(u.scheme, Format(u))
    ensures r.Err? && r.error.FetchFailed? ==> u.scheme in {"http", "https"}
  {
    if u.scheme == "file" then ReadFile(CleanPath(u.path, OnWindows), fs)
    else if u.scheme == "http" || u.scheme == "https" then
      match fetch(u, timeout)
      case Ok(content) => Ok(content)
      case Err(e) => Err(FetchFailed(e))
    else Err(UnsupportedScheme(u.scheme, Format(u)))
  }

  /** Reads a location, resolved against `base`. */
  function Read(location: string, base: string, cwd: string, fs: FileSystem,
                fetch: (Url, nat) -> Result<Bytes, FetchError>, timeout: nat)
    : (r: Result<Bytes, ReadError>)
    ensures r.Err? && r.error.UnsupportedScheme? ==>
              ParseWithScheme(location).Some? || ParseWithScheme(base).Some?
    ensures r.Err? && r.error.FetchFailed? ==>
              ParseWithScheme(location).Some? || ParseWithScheme(base).Some?
  {
    match Resolve(location, base, cwd)
    case LocalFile(path) => ReadFile(path, fs)
    case Remote(u) => ReadUrl(u, timeout, fs, fetch)
  }

  /** The working directory as a `file` URL. */
  function GetwdAsUrl(cwd: string, windows: bool): (r: string)
    ensures ParseWithScheme(r) == Some(Url("file", Some(""), "/" + ToSlash(cwd, windows)))
  {
    ParseFileTriple(ToSlash(cwd, windows));
    "file:///" + ToSlash(cwd, windows)
  }

  /** The path of the working-directory URL names the working directory. */
  lemma GetwdAsUrlNamesCwd(cwd: string, windows: bool)
    ensures var u := ParseWithScheme(GetwdAsUrl(cwd, windows)).value;
            u.scheme == "file" && CleanPath(u.path, windows) == CleanPath(cwd, windows)
  {
    RootedCleanPath(ToSlash(cwd, windows), windows);
    SegmentsToSlash(cwd, windows);
  }

  /** On POSIX the working-directory URL is `file:///` followed by the directory as written. */
  lemma GetwdAsUrlPosix(cwd: string)
    ensures GetwdAsUrl(cwd, OnWindows) == "file:///" + cwd
  {
    ToSlashPosix(cwd);
  }

  /** On windows the working-directory URL holds no backslash: every separator became `/`. */
  lemma GetwdAsUrlWindows(cwd: string)
    ensures '\\' !in GetwdAsUrl(cwd, true)
  {
    ToSlashRemovesBackslash(cwd);
  }

  // Properties of the decision list

  /** A URL location or an absolute-path location is read the same whatever the base. */
  lemma BaseIgnoredForUrlOrAbsolute(location: string, base1: string, base2: string, cwd: string)
    requires ParseWithScheme(location).Some? || IsAbs(location)
    ensures Resolve(location, base1, cwd) == Resolve(location, base2, cwd)
  {
  }

  /** An absolute location names its own segments, whatever the base. */
  lemma AbsoluteLocation(location: string, base: string, cwd: string)
    requires IsAbs(location)
    ensures Resolve(location, base, cwd) == LocalFile(CleanPath(location, OnWindows))
  {
  }

  /** Unsupported schemes fail the same whatever the disk or the network hold: no I/O happens. */
  lemma UnsupportedSchemeDoesNoIo(u: Url, timeout: nat, fs1: FileSystem, fs2: FileSystem,
                                  fetch1: (Url, nat) -> Result<Bytes, FetchError>,
                                  fetch2: (Url, nat) -> Result<Bytes, FetchError>)
    requires u.scheme !in {"file", "http", "https"}
    ensures ReadUrl(u, timeout, fs1, fetch1) == ReadUrl(u, timeout, fs2, fetch2)
              == Err(UnsupportedScheme(u.scheme, Format(u)))
  {
  }

  /** `http` and `https` URLs are handed to the fetch, and its bytes come back unchanged. */
  lemma HttpGoesToFetch(u: Url, timeout: nat, fs: FileSystem, fetch: (Url, nat) -> Result<Bytes, FetchError>)
    requires u.scheme == "http" || u.scheme == "https"
    ensures fetch(u, timeout).Ok? ==> ReadUrl(u, timeout, fs, fetch) == Ok(fetch(u, timeout).value)
    ensures fetch(u, timeout).Err? ==> ReadUrl(u, timeout, fs, fetch) == Err(FetchFailed(fetch(u, timeout).error))
  {
  }

  /** A `file` URL returns exactly the bytes of the file its path names. */
  lemma ReadUrlFile(u: Url, timeout: nat, fs: FileSystem, fetch: (Url, nat) -> Result<Bytes, FetchError>)
    requires u.scheme == "file" && CleanPath(u.path, OnWindows) in fs
    ensures ReadUrl(u, timeout, fs, fetch) == Ok(fs[CleanPath(u.path, OnWindows)])
  {
  }

  /** A relative location against an absolute base reads what `base/location` reads. */
  lemma AbsoluteBaseJoins(location: string, base: string, other: string, cwd: string)
    requires ParseWithScheme(location) == None && !IsAbs(location)
    requires IsAbs(base)
    ensures Resolve(location, base, cwd) == Resolve(base + "/" + location, other, cwd)
  {
    NoSchemeWithoutLetter(base);
    NoSchemeWithoutLetter(base + "/" + location);
    CleanPathAround(base, '/', location, OnWindows);
  }

  /** A relative location with an empty base resolves like the absolute path `cwd/location`, whatever base that is read with. */
  lemma EmptyBaseJoins(location: string, cwd: string, other: string)
    requires ParseWithScheme(location) == None && !IsAbs(location)
    requires IsAbs(cwd)
    ensures Resolve(location, "", cwd) == Resolve(cwd + "/" + location, other, cwd)
  {
    assert (cwd + "/" + location)[0] == cwd[0];
    assert IsAbs(cwd + "/" + location);
    CleanPathAround(cwd, '/', location, OnWindows);
  }

  /** A relative location against a relative path base reads what `base/location` reads against the working directory. */
  lemma RelativeBaseJoins(location: string, base: string, cwd: string)
    requires ParseWithScheme(location) == None && !IsAbs(location)
    requires base != "" && ParseWithScheme(base) == None && !IsAbs(base)
    ensures Resolve(location, base, cwd) == Resolve(base + "/" + location, "", cwd)
  {
    NoSchemeAppend(base, location);
    CleanPathAround(base, '/', location, OnWindows);
    assert (base + "/" + location)[0] == base[0];
  }

  /** A base written with a leading `./` names the same directory as without it. */
  lemma DotBaseSameAsPlain(location: string, base: string, cwd: string)
    requires ParseWithScheme(location) == None && !IsAbs(location)
    requires base != "" && ParseWithScheme(base) == None && !IsAbs(base)
    ensures Resolve(location, "./" + base, cwd) == Resolve(location, base, cwd)
  {
    NoSchemeWithoutLetter("./" + base);
    assert "./" + base == "." + ['/'] + base;
    CleanPathAround(".", '/', base, OnWindows);
    assert Segments(".", OnWindows) == ["."];
  }

  /** A relative location against a `file` URL base reads the same as against that URL's path. */
  lemma FileUrlBaseSameAsPathBase(location: string, base: string, cwd: string, fs: FileSystem,
                                  fetch: (Url, nat) -> Result<Bytes, FetchError>, timeout: nat)
    requires ParseWithScheme(location) == None && !IsAbs(location)
    requires ParseWithScheme(base).Some?
    requires ParseWithScheme(base).value.scheme == "file" && IsAbs(ParseWithScheme(base).value.path)
    ensures Read(location, base, cwd, fs, fetch, timeout)
            == Read(location, ParseWithScheme(base).value.path, cwd, fs, fetch, timeout)
  {
    NoSchemeWithoutLetter(ParseWithScheme(base).value.path);
  }

  // The cases of the package's tests. `fixtures/file.txt` under the working directory
  // holds the expected content; its canonical path is the working directory's
  // segments followed by "fixtures" and "file.txt".

  function FixtureTarget(cwd: string): (path: seq<string>)
    ensures Canonical(path, OnWindows)
  {
    CleanPath(cwd, OnWindows) + ["fixtures", "file.txt"]
  }

  /** `fixtures`, `file.txt` and `fixtures/file.txt` name the segments they spell. */
  lemma FixtureSegments(dir: string, name: string, rel: string)
    requires dir == "fixtures" && name == "file.txt" && rel == dir + "/" + name
    ensures CleanPath(dir, OnWindows) == [dir]
    ensures CleanPath(name, OnWindows) == [name]
    ensures CleanPath(rel, OnWindows) == [dir, name]
  {
    NameCleanPath(dir, OnWindows);
    NameCleanPath(name, OnWindows);
    CleanPathAround(dir, '/', name, OnWindows);
  }

  /** `cwd/fixtures/file.txt` names the fixture. */
  lemma FixtureUnderCwd(cwd: string, rel: string)
    requires rel == "fixtures/file.txt"
    ensures CleanPath(rel, OnWindows) == ["fixtures", "file.txt"]
    ensures CleanPath(cwd + "/" + rel, OnWindows) == FixtureTarget(cwd)
  {
    FixtureSegments("fixtures", "file.txt", rel);
    CleanPathAround(cwd, '/', rel, OnWindows);
  }

  /** The working-directory URL followed by `/fixtures/file.txt` reads the fixture, whatever the base. */
  lemma ReadFixtureByUrl(location: string, base: string, cwd: string, fs: FileSystem,
                         fetch: (Url, nat) -> Result<Bytes, FetchError>, timeout: nat)
    requires location == GetwdAsUrl(cwd, OnWindows) + "/fixtures/file.txt"
    ensures Read(location, base, cwd, fs, fetch, timeout) == ReadFile(FixtureTarget(cwd), fs)
  {
    var rel := "fixtures/file.txt";
    var rest := cwd + "/" + rel;
    GetwdAsUrlPosix(cwd);
    assert location == "file:///" + rest;
    ParseFileTriple(rest);
    RootedCleanPath(rest, OnWindows);
    FixtureUnderCwd(cwd, rel);
    assert Resolve(location, base, cwd) == Remote(Url("file", Some(""), "/" + rest));
  }

  /** `cwd/fixtures/file.txt`, an absolute location, reads the fixture, whatever the base. */
  lemma ReadFixtureByAbsolutePath(location: string, base: string, cwd: string, fs: FileSystem,
                                  fetch: (Url, nat) -> Result<Bytes, FetchError>, timeout: nat)
    requires IsAbs(cwd) && location == cwd + "/fixtures/file.txt"
    ensures Read(location, base, cwd, fs, fetch, timeout) == ReadFile(FixtureTarget(cwd), fs)
  {
    var rel := "fixtures/file.txt";
    assert location == cwd + "/" + rel;
    FixtureUnderCwd(cwd, rel);
    assert location[0] == cwd[0];
    AbsoluteLocation(location, base, cwd);
  }

  /** `fixtures/file.txt` is neither a URL nor absolute. */
  lemma FixtureIsRelative(location: string)
    requires location == "fixtures/file.txt"
    ensures ParseWithScheme(location) == None && !IsAbs(location)
  {
    NoColonNoScheme(location);
  }

  /** `fixtures/file.txt` against the working-directory URL as base names the fixture's URL. */
  lemma ResolveAgainstCwdUrl(location: string, base: string, cwd: string)
    requires location == "fixtures/file.txt" && base == GetwdAsUrl(cwd, OnWindows)
    ensures Resolve(location, base, cwd).Remote?
    ensures Resolve(location, base, cwd).url.scheme == "file"
    ensures CleanPath(Resolve(location, base, cwd).url.path, OnWindows) == FixtureTarget(cwd)
  {
    FixtureIsRelative(location);
    FixtureUnderCwd(cwd, location);
    GetwdAsUrlNamesCwd(cwd, OnWindows);
  }

  /** `fixtures/file.txt` reads the fixture with an empty base, the working-directory URL or the working directory as base. */
  lemma ReadFixtureRelative(location: string, base: string, cwd: string, fs: FileSystem,
                            fetch: (Url, nat) -> Result<Bytes, FetchError>, timeout: nat)
    requires IsAbs(cwd) && location == "fixtures/file.txt"
    requires base == "" || base == GetwdAsUrl(cwd, OnWindows) || base == cwd
    ensures Read(location, base, cwd, fs, fetch, timeout) == ReadFile(FixtureTarget(cwd), fs)
  {
    FixtureIsRelative(location);
    FixtureUnderCwd(cwd, location);
    if base == GetwdAsUrl(cwd, OnWindows) {
      ResolveAgainstCwdUrl(location, base, cwd);
    } else if base == cwd {
      NoSchemeWithoutLetter(cwd);
    }
  }

  /** A bare name against a bare directory name as base names that directory's entry under the working directory. */
  lemma ResolveNameInDirectory(name: string, dir: string, cwd: string)
    requires IsNamed(name) && NoSeparator(name, OnWindows) && ':' !in name
    requires IsNamed(dir) && NoSeparator(dir, OnWindows) && ':' !in dir
    ensures Resolve(name, dir, cwd) == LocalFile(CleanPath(cwd, OnWindows) + [dir, name])
  {
    NoColonNoScheme(name);
    NoColonNoScheme(dir);
    NameCleanPath(name, OnWindows);
    NameCleanPath(dir, OnWindows);
    Associative(CleanPath(cwd, OnWindows), [dir], [name]);
  }

  /** `file.txt` against the base `fixtures` names the fixture. */
  lemma ResolveFixtureFromPlainBase(location: string, base: string, cwd: string)
    requires location == "file.txt" && base == "fixtures"
    ensures Resolve(location, base, cwd) == LocalFile(FixtureTarget(cwd))
  {
    ResolveNameInDirectory(location, base, cwd);
  }

  /** `file.txt` against the base `fixtures` or `./fixtures` reads the fixture. */
  lemma ReadFixtureFromRelativeBase(location: string, base: string, cwd: string, fs: FileSystem,
                                    fetch: (Url, nat) -> Result<Bytes, FetchError>, timeout: nat)
    requires location == "file.txt" && (base == "fixtures" || base == "./fixtures")
    ensures Read(location, base, cwd, fs, fetch, timeout) == ReadFile(FixtureTarget(cwd), fs)
  {
    var plain := "fixtures";
    ResolveFixtureFromPlainBase(location, plain, cwd);
    if base != plain {
      DotFixtures(base, plain);
      NoColonNoScheme(location);
      DotBaseSameAsPlain(location, plain, cwd);
    }
  }

  lemma DotFixtures(base: string, plain: string)
    requires base == "./fixtures" && plain == "fixtures"
    ensures base == "./" + plain
  {
  }

  /** A URL location whose scheme is not supported fails, naming the scheme and the location as written. */
  lemma UnsupportedLocation(location: string, base: string, cwd: string, fs: FileSystem,
                            fetch: (Url, nat) -> Result<Bytes, FetchError>, timeout: nat)
    requires ParseWithScheme(location).Some?
    requires ParseWithScheme(location).value.scheme !in {"file", "http", "https"}
    ensures Read(location, base, cwd, fs, fetch, timeout)
            == Err(UnsupportedScheme(ParseWithScheme(location).value.scheme, location))
  {
    FormatParse(location);
  }

  /** `ftp://localhost/some-file.txt` parses as an `ftp` URL. */
  lemma FtpParses(location: string)
    requires location == "ftp://localhost/some-file.txt"
    ensures ParseWithScheme(location) == Some(Url("ftp", Some("localhost"), "/some-file.txt"))
  {
    FtpText(location);
    ParseAuthorityUrl("ftp", "localhost", "/some-file.txt");
  }

  lemma FtpText(location: string)
    requires location == "ftp://localhost/some-file.txt"
    ensures location == "ftp" + "://" + "localhost" + "/some-file.txt"
  {
  }

  /** An `ftp` URL fails with the unsupported-scheme error and its text, whatever the base. */
  lemma FtpUnsupported(location: string, base: string, cwd: string, fs: FileSystem,
                       fetch: (Url, nat) -> Result<Bytes, FetchError>, timeout: nat)
    requires location == "ftp://localhost/some-file.txt"
    ensures var r := Read(location, base, cwd, fs, fetch, timeout);
            && r == Err(UnsupportedScheme("ftp", location))
            && Message(r.error) == "unsupported URL scheme ftp in " + location
  {
    FtpParses(location);
    UnsupportedLocation(location, base, cwd, fs, fetch, timeout);
    FtpMessage(location);
  }

  lemma FtpMessage(url: string)
    ensures Message(UnsupportedScheme("ftp", url)) == "unsupported URL scheme ftp in " + url
  {
  }
}
