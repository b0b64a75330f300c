# go-ape location handling in Dafny

This project models two small pieces of the go-ape repository and proves
properties of them.

1. **Home-directory shorthand.** There are two copies: package `furl` and the older root
   package `fileutils`.
   - `StartsWithCurrentUserDirectoryAsTilde(path, platform)` recognises a leading `~/`
     on every platform and `~\` on `windows` only.
   - `ResolveTilde(path)` replaces a recognised prefix with the home directory. It
     returns every other path unchanged. It fails only when the home directory cannot
     be determined.
   - The furl copy joins the remainder with the native separator, so `~/some/location`
     becomes `<home>\some\location` on windows.
   - The root copy keeps the remainder exactly as written.
2. **Location reading in package furl.** `Read(location, base)` works through an
   ordered decision list:
   - A URL location is used as it stands.
   - Otherwise an absolute path is used as it stands.
   - Otherwise the relative location is resolved against `base`. The base may be empty
     (the working directory), a URL, an absolute path, or a relative path (resolved
     against the working directory first).
   - The result is then read from disk or dispatched by scheme in `ReadUrl`: `file`
     reads the disk, `http` and `https` fetch, and any other scheme fails with
     `unsupported URL scheme <scheme> in <url>`.
   - The tests' helper `getwdAsURL` is modelled too.

The environment is passed in as parameters:
- the running platform (Go's GOOS value);
- the result of the home-directory lookup (`None` when it fails);
- the working directory;
- the filesystem, a map from canonical absolute path to bytes;
- the HTTP GET, a function from URL and timeout to bytes or a fetch error.

Modules:
- `Wrappers`: `Option` and `Result`.
- `Paths`: splitting a path at the platform's separators, dropping empty and `.`
  segments, and joining with the native separator. This is the part of Go's
  `filepath.Join`, `filepath.Clean` and `filepath.ToSlash` that the code relies on.
- `Urls`: a URL reduced to scheme, optional authority and path. Parsing follows the
  scheme rule of Go's `net/url`, and there is a formatting function with round trips
  in both directions.
- `Tilde`: the furl copy of the shorthand functions.
- `FileUtils`: the root copy.
- `Furl`: `Read`, `ReadUrl`, the decision list, `getwdAsURL`, and the cases of the
  package's tests.

The behaviour modelled is the one that the packages' tests fix
(pkg/furl/paths_test.go, pkg/furl/read_test.go, paths_test.go). Where the tests leave
a choice open, the choice made is listed under "## Left out".

## Model

| member | source | states |
|---|---|---|
| `Tilde.StartsWithCurrentUserDirectoryAsTilde` | pkg/furl/paths_test.go:26-51 | true exactly when the path has at least two characters and begins with `~/`, or with `~\` when the platform is `windows` |
| `Tilde.SlashAcceptedEverywhere` | pkg/furl/paths_test.go:28-31 | `~/` followed by anything is the shorthand on every platform |
| `Tilde.BackslashAcceptedOnlyOnWindows` | pkg/furl/paths_test.go:34-43 | `~\` followed by anything is the shorthand if and only if the platform is `windows` |
| `Tilde.PlatformExamples` | pkg/furl/paths_test.go:26-51 | the four test cases: `~/` on darwin yes, `~\` on darwin no, `~\` on windows yes, `~/` on windows yes |
| `Tilde.ResolveTilde` | pkg/furl/paths_test.go:53-92 | fails if and only if the prefix is recognised and the home lookup fails; the lookup is not consulted otherwise |
| `Tilde.ResolveTildeLeavesOthersUnchanged` | pkg/furl/paths_test.go:75-90 | a path without the shorthand comes back unchanged and without error, whatever the home lookup gives |
| `Tilde.ResolveTildeUnchangedExamples` | pkg/furl/paths_test.go:75-91 | `look/matilde/no/tilde` and `look/matilde/thereisa/~` come back unchanged |
| `Tilde.ResolveTildeRemovesTilde` | pkg/furl/paths_test.go:55-73 | expansion succeeds, and the result holds no `~` unless the home directory or the remainder brought one |
| `Tilde.ResolveTildeKeepsRemainder` | pkg/furl/paths_test.go:55-63 | for a remainder without empty or `.` segments, the result is the home directory, the native separator and the remainder with every separator made native; so a remainder written natively is kept as the suffix |
| `Tilde.ResolveTildeBareShorthand` | pkg/furl/paths_test.go:55-73 | the two-character shorthand alone expands to the home directory itself, with no trailing separator |
| `Tilde.ResolveTildeTwoNames` | pkg/furl/paths_test.go:55-73 | `~`, a separator, a name, the same separator and a name expand to the home directory and the two names joined with the native separator |
| `Tilde.ResolveTildeExamples` | pkg/furl/paths_test.go:55-73 | `~<native>some<native>location` and `~/some/location` both expand to `<home><native>some<native>location`, which holds no `~` |
| `FileUtils.StartsWithCurrentUserDirectoryAsTilde` | paths_test.go:25-50 | the same platform rule as the furl copy |
| `FileUtils.SameDetectionAsFurl` | paths_test.go:25-50 | the root copy and the furl copy accept exactly the same paths on every platform |
| `FileUtils.PlatformExamples` | paths_test.go:27-49 | the four platform test cases of the root package |
| `FileUtils.ResolveTilde` | paths_test.go:52-81 | fails if and only if the prefix is recognised and the home lookup fails |
| `FileUtils.ResolveTildeKeepsSuffix` | paths_test.go:54-62 | expansion succeeds, its result ends with the input minus its two-character prefix, and it holds `~` only if the home directory or the remainder does |
| `FileUtils.ResolveTildeExample` | paths_test.go:54-62 | `~/some/location` expands to a result with no `~` that ends with `some/location`, on every platform |
| `FileUtils.ResolveTildeBareShorthand` | paths_test.go:52-62 | the two-character shorthand alone expands to the home directory itself, with no separator after it |
| `FileUtils.ResolveTildeLeavesOthersUnchanged` | paths_test.go:64-80 | a path without the shorthand, including the two of the tests, comes back unchanged and without error |
| `FileUtils.AgreesWithFurlOnNativeRemainder` | paths_test.go:52-81 | when the remainder is clean and already written with native separators, both copies give the same result |
| `Paths.CleanPath` | pkg/furl/read_test.go:75 | the segments a path names are canonical: each is non-empty, not `.`, and holds no separator |
| `Paths.SegmentsJoin` | pkg/furl/read_test.go:75 | splitting a native join of separator-free segments gives back exactly those segments |
| `Paths.CleanPathJoin` | pkg/furl/read_test.go:75 | a canonical segment list written out with the native separator reads back as itself |
| `Paths.CleanPathAround` | pkg/furl/read_test.go:62 | joining two paths with a separator names the segments of the first followed by those of the second |
| `Paths.JoinSegments` | pkg/furl/paths_test.go:65-72 | splitting a path and joining it with the native separator only replaces each separator by the native one |
| `Paths.ToSlash` | pkg/furl/read_test.go:204-208 | `filepath.ToSlash` keeps the length of the path |
| `Paths.ToSlashRemovesBackslash` | pkg/furl/read_test.go:204-208 | on windows no backslash survives `ToSlash` |
| `Paths.ToSlashPosix` | pkg/furl/read_test.go:204-208 | elsewhere `ToSlash` changes nothing |
| `Paths.SegmentsToSlash` | pkg/furl/read_test.go:204-208 | `ToSlash` does not change the segments a path names |
| `Urls.ParseWithScheme` | pkg/furl/read_test.go:159-161 | a parse result is well formed: a valid scheme, and an authority and path that format unambiguously |
| `Urls.Format` | pkg/furl/read_test.go:141-150 | the URL text starts with the scheme and a `:`, followed by `//` when there is an authority |
| `Urls.FormatParse` | pkg/furl/read_test.go:141-150 | formatting a parsed URL gives back the text exactly, which is the URL text the unsupported-scheme message quotes |
| `Urls.ParseFormat` | pkg/furl/read_test.go:159-161 | parsing the text of a well-formed URL gives back that URL |
| `Urls.NoColonNoScheme` | pkg/furl/read_test.go:73-88 | text without a colon, such as a relative path, is not a URL |
| `Urls.NoSchemeWithoutLetter` | pkg/furl/read_test.go:58-70 | text that does not start with a letter, such as an absolute path or `./fixtures`, is not a URL |
| `Urls.NoSchemeAppend` | pkg/furl/read_test.go:115-126 | a relative path that is not a URL stays one when `/` and more text are appended |
| `Urls.ParseAuthorityUrl` | pkg/furl/read_test.go:141-150 | `scheme://host/path` parses into exactly its scheme, host and path |
| `Urls.ParseFileTriple` | pkg/furl/read_test.go:204-208 | `file:///x` parses as scheme `file`, empty authority and path `/x` |
| `Furl.Message` | pkg/furl/read_test.go:149 | the unsupported-scheme text starts with `unsupported URL scheme `, then the scheme, and ends with the URL text; a missing file's text ends with `: no such file or directory` |
| `Furl.IsAbs` | pkg/furl/read_test.go:58-70 | an absolute path, the second branch of the decision list, is never a URL |
| `Furl.JoinUrlPath` | pkg/furl/read_test.go:91-100 | joining a relative location onto a URL path gives a rooted path with no leading `//` that names the base path's segments followed by the location's |
| `Furl.Resolve` | pkg/furl/read_test.go:32-152 | the decision list: a local target is a canonical path, and a remote target is a well-formed URL |
| `Furl.ReadFile` | pkg/furl/read_test.go:52-55 | the disk read succeeds if and only if the path is a file, returns that file's bytes, and otherwise fails with NotFound for that path |
| `Furl.ReadUrl` | pkg/furl/read_test.go:154-201 | fails with the unsupported-scheme error if and only if the scheme is not `file`, `http` or `https`, naming the scheme and the URL text; fetch failures only for `http` and `https` |
| `Furl.Read` | pkg/furl/read_test.go:32-152 | an unsupported-scheme or fetch failure happens only when the location or the base is a URL |
| `Furl.GetwdAsUrl` | pkg/furl/read_test.go:204-208 | the working-directory URL parses as scheme `file`, empty authority and path `/` followed by the directory with separators made `/` |
| `Furl.GetwdAsUrlNamesCwd` | pkg/furl/read_test.go:204-208 | the path of the working-directory URL names the same segments as the working directory |
| `Furl.GetwdAsUrlPosix` | pkg/furl/read_test.go:204-208 | on POSIX the working-directory URL is `file:///` followed by the directory as written |
| `Furl.GetwdAsUrlWindows` | pkg/furl/read_test.go:204-208 | on windows the working-directory URL holds no backslash |
| `Furl.BaseIgnoredForUrlOrAbsolute` | pkg/furl/read_test.go:45-70 | a URL location or an absolute location resolves the same whatever the base |
| `Furl.AbsoluteLocation` | pkg/furl/read_test.go:58-70 | an absolute location names its own segments, whatever the base |
| `Furl.UnsupportedSchemeDoesNoIo` | pkg/furl/read_test.go:141-150 | an unsupported scheme fails the same whatever the disk and the network hold, with the scheme and the URL text |
| `Furl.HttpGoesToFetch` | pkg/furl/read_test.go:171-201 | `http` and `https` URLs go to the fetch; its bytes come back unchanged, and its failure comes back wrapped |
| `Furl.ReadUrlFile` | pkg/furl/read_test.go:162-169 | a `file` URL returns exactly the bytes of the file its path names |
| `Furl.AbsoluteBaseJoins` | pkg/furl/read_test.go:104-112 | a relative location against an absolute base resolves like the absolute path `base/location` |
| `Furl.EmptyBaseJoins` | pkg/furl/read_test.go:73-88 | a relative location with an empty base resolves like the absolute path `cwd/location`, whatever base that is read with |
| `Furl.RelativeBaseJoins` | pkg/furl/read_test.go:115-126 | a relative location against a relative base resolves like `base/location` against the working directory |
| `Furl.DotBaseSameAsPlain` | pkg/furl/read_test.go:115-138 | a base written with a leading `./` resolves the same as the base without it |
| `Furl.FileUrlBaseSameAsPathBase` | pkg/furl/read_test.go:91-112 | a relative location against a `file` URL base reads the same as against that URL's absolute path |
| `Furl.ReadFixtureByUrl` | pkg/furl/read_test.go:45-55 | the working-directory URL followed by `/fixtures/file.txt` reads the fixture, whatever the base |
| `Furl.ReadFixtureByAbsolutePath` | pkg/furl/read_test.go:58-70 | `cwd/fixtures/file.txt` reads the fixture, whatever the base |
| `Furl.ResolveAgainstCwdUrl` | pkg/furl/read_test.go:91-100 | `fixtures/file.txt` against the working-directory URL resolves to a `file` URL whose path names the fixture |
| `Furl.ReadFixtureRelative` | pkg/furl/read_test.go:73-112 | `fixtures/file.txt` reads the fixture with an empty base, with the working-directory URL as base, and with the working directory as base |
| `Furl.ResolveNameInDirectory` | pkg/furl/read_test.go:115-126 | a plain name against a plain directory name names that directory's entry under the working directory |
| `Furl.ResolveFixtureFromPlainBase` | pkg/furl/read_test.go:115-126 | `file.txt` against the base `fixtures` resolves to the fixture |
| `Furl.ReadFixtureFromRelativeBase` | pkg/furl/read_test.go:115-138 | `file.txt` against the base `fixtures` or `./fixtures` reads the fixture |
| `Furl.UnsupportedLocation` | pkg/furl/read_test.go:141-150 | a URL location with an unsupported scheme fails with that scheme and the location exactly as written, whatever the base |
| `Furl.FtpParses` | pkg/furl/read_test.go:141-150 | `ftp://localhost/some-file.txt` parses as scheme `ftp`, host `localhost`, path `/some-file.txt` |
| `Furl.FtpUnsupported` | pkg/furl/read_test.go:141-150 | reading `ftp://localhost/some-file.txt` fails with the message `unsupported URL scheme ftp in ftp://localhost/some-file.txt`, whatever the base |

## Left out

- HTTP and HTTPS fetching and its timeout are left out: they need network I/O and a wall-clock deadline. The fetch is a function parameter that receives the URL and the timeout. Its two failure kinds, `Timeout` and `NetworkError`, stand for Go's `*url.Error`.
- Disk reads, `os.Getwd` and the home-directory lookup are environment queries, so they are parameters. The filesystem is a map from canonical path to bytes, and the home directory is an `Option`.
- The runtime `GOOS` query inside `ResolveTilde` is the `platform` parameter.
- `Furl.Read`, `Furl.Resolve`: classification follows POSIX path rules only (`/` separators, absolute means a leading `/`). Windows paths, including drive letters such as `C:`, are not modelled.
- `Paths.CleanPath`: `..` segments are kept as names and not resolved against their parent, as `filepath.Clean` would do.
- `Urls.ParseWithScheme`: only scheme, authority and path are modelled.
  - Query, fragment, user information, port and percent-decoding are left out.
  - The scheme is not lowercased.
  - Text that starts with `:`, which `net/url` rejects as an error, reads as "not a URL".
  - An opaque URL, `scheme:` followed by text that does not start with `/`, is read with that text as its path. `net/url` stores such text in `Opaque` and leaves `Path` empty. So in the model `file:x` reads the file `/x`, and a base `file:fixtures` joins a location to `/fixtures/...`.
- `Furl.JoinUrlPath`: a relative location is joined onto a URL base as path segments, in the style of `path.Join`, not by RFC 3986 reference resolution.
- `Furl.Message`: only the unsupported-scheme text is fixed by the tests. The texts for a missing file and a failed fetch are approximations.
- `Tilde.ResolveTilde`: the remainder is split into segments, empty and `.` segments are dropped, and the rest is joined with the native separator, as `filepath.Join` would. Only the two test remainders (`some/location`, written with either separator) are pinned. The home directory is used exactly as the lookup gives it and is not cleaned: `Some("/")` with `~/a` gives `//a`, and `Some("")` with `~/a` gives `/a`, where `filepath.Join` would give `/a` and `a`.
- `FileUtils.ResolveTilde`: the home directory is likewise used as given, followed by the native separator and the remainder; `Some("/")` with `~/a` gives `//a`.
- The `test_support` servers and the Ginkgo test harness are not modelled.
