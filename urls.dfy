/**
 * URLs reduced to what location classification needs: a scheme, an optional
 * authority (after `//`) and the rest, read as the path. Parsing follows the
 * scheme rule of Go's net/url: a letter, then letters, digits, `+`, `-` or `.`,
 * ended by `:`; text that breaks the rule before a `:` has no scheme.
 */
module Urls {
  import opened Wrappers

  predicate IsLetter(c: char) {
    ('a' <= c <= 'z') || ('A' <= c <= 'Z')
  }

  predicate IsSchemeChar(c: char) {
    IsLetter(c) || ('0' <= c <= '9') || c == '+' || c == '-' || c == '.'
  }

  /** Every character of `s` may appear in a scheme. */
  predicate AllSchemeChars(s: string) {
    forall i :: 0 <= i < |s| ==> IsSchemeChar(s[i])
  }

  predicate ValidScheme(s: string) {
    |s| > 0 && IsLetter(s[0]) && AllSchemeChars(s)
  }

  datatype Url = Url(scheme: string, authority: Option<string>, path: string)

  /** A URL that text written by Format reads back as. */
  predicate WellFormed(u: Url) {
    ValidScheme(u.scheme) && AuthorityFits(u.authority, u.path)
  }

  /** `s` starts with `//`. */
  predicate DoubleSlash(s: string) {
    |s| >= 2 && s[0] == '/' && s[1] == '/'
  }

  /** An authority and a path that AuthorityText writes unambiguously. */
  predicate AuthorityFits(authority: Option<string>, path: string) {
    match authority
    case None => !DoubleSlash(path)
    case Some(host) => '/' !in host && (path == "" || path[0] == '/')
  }

  /**
   * Scans a scheme candidate: scheme characters up to the first `:`, giving the
   * characters before it and the text after it; None when another character or
   * the end of the text comes first.
   */
  function SchemeScan(s: string): Option<(string, string)> {
    if |s| == 0 then None
    else if s[0] == ':' then Some(("", s[1..]))
    else if IsSchemeChar(s[0]) then
      match SchemeScan(s[1..])
      case None => None
      case Some(p) => Some(([s[0]] + p.0, p.1))
    else None
  }

  /** The text up to the first `/`, and the rest from that `/` on. */
  function HostScan(s: string): (string, string) {
    if |s| == 0 || s[0] == '/' then ("", s)
    else
      var r := HostScan(s[1..]);
      ([s[0]] + r.0, r.1)
  }

  /** What follows `scheme:`, split into the authority after `//` (up to the next `/`) and the path. */
  function SplitAuthority(rest: string): (parts: (Option<string>, string))
    ensures AuthorityFits(parts.0, parts.1)
  {
    if DoubleSlash(rest) then
      HostScanSound(rest[2..]);
      var r := HostScan(rest[2..]);
      (Some(r.0), r.1)
    else
      (None, rest)
  }

  /** The text after `scheme:` of a URL. */
  function AuthorityText(authority: Option<string>, path: string): string {
    match authority
    case None => path
    case Some(host) => "//" + host + path
  }

  /** The URL `s` denotes when it starts with a scheme; None for text with no scheme. */
  function ParseWithScheme(s: string): (u: Option<Url>)
    ensures u.Some? ==> WellFormed(u.value)
  {
    if |s| == 0 || !IsLetter(s[0]) then None
    else
      match SchemeScan(s)
      case None => None
      case Some(p) =>
        SchemeScanSound(s);
        var parts := SplitAuthority(p.1);
        Some(Url(p.0, parts.0, parts.1))
  }

  /** The text of a URL: the scheme, a `:`, then `//` and the host when there is an authority. */
  function Format(u: Url): (s: string)
    ensures |s| > |u.scheme| && s[..|u.scheme|] == u.scheme && s[|u.scheme|] == ':'
    ensures u.authority.Some? ==> |s| >= |u.scheme| + 3 && s[|u.scheme| + 1..|u.scheme| + 3] == "//"
  {
    u.scheme + ":" + AuthorityText(u.authority, u.path)
  }

  lemma AllSchemeCharsCons(c: char, s: string)
    requires IsSchemeChar(c) && AllSchemeChars(s)
    ensures AllSchemeChars([c] + s)
  {
    forall i | 0 <= i < |[c] + s|
      ensures IsSchemeChar(([c] + s)[i])
    {
      if i > 0 {
        assert ([c] + s)[i] == s[i - 1];
      }
    }
  }

  /** What the scan finds is scheme characters, a `:` and the rest, in that order. */
  lemma {:induction false} SchemeScanSound(s: string)
    ensures match SchemeScan(s)
            case None => true
            case Some(p) => s == p.0 + ":" + p.1 && AllSchemeChars(p.0)
                            && (|p.0| > 0 ==> p.0[0] == s[0])
  {
    if |s| > 0 && s[0] != ':' && IsSchemeChar(s[0]) {
      SchemeScanSound(s[1..]);
      match SchemeScan(s[1..])
      case None =>
      case Some(p) =>
        AllSchemeCharsCons(s[0], p.0);
        assert s == [s[0]] + s[1..];
    }
  }

  lemma ColonTail(a: string, t: string)
    requires |a| > 0
    ensures (a + ":" + t)[0] == a[0] && (a + ":" + t)[1..] == a[1..] + ":" + t
  {
  }

  /** Scheme characters followed by `:` scan as exactly that scheme. */
  lemma {:induction false} SchemeScanOf(a: string, t: string)
    requires AllSchemeChars(a)
    ensures SchemeScan(a + ":" + t) == Some((a, t))
  {
    if |a| == 0 {
      assert a + ":" + t == [':'] + t;
    } else {
      ColonTail(a, t);
      assert AllSchemeChars(a[1..]) by {
        forall i | 0 <= i < |a[1..]| ensures IsSchemeChar(a[1..][i]) {
          assert a[1..][i] == a[i + 1];
        }
      }
      SchemeScanOf(a[1..], t);
      assert [a[0]] + a[1..] == a;
    }
  }

  /** Text without a colon has no scheme. */
  lemma {:induction false} NoColonNoScan(s: string)
    requires ':' !in s
    ensures SchemeScan(s) == None
  {
    if |s| > 0 {
      assert ':' !in s[1..];
      NoColonNoScan(s[1..]);
    }
  }

  /** A scan that fails on `b` still fails once `b` is followed by a character that ends no scheme. */
  lemma {:induction false} NoScanAppend(b: string, t: string)
    requires SchemeScan(b) == None
    requires |t| > 0 && t[0] != ':' && !IsSchemeChar(t[0])
    ensures SchemeScan(b + t) == None
  {
    if |b| == 0 {
      assert b + t == t;
    } else if IsSchemeChar(b[0]) {
      assert (b + t)[0] == b[0] && (b + t)[1..] == b[1..] + t;
      NoScanAppend(b[1..], t);
    } else {
      assert (b + t)[0] == b[0];
    }
  }

  /** The host part holds no `/`, the path part is empty or starts with `/`, and together they are `s`. */
  lemma {:induction false} HostScanSound(s: string)
    ensures var r := HostScan(s);
            && '/' !in r.0 && (r.1 == "" || r.1[0] == '/') && r.0 + r.1 == s
  {
    if |s| > 0 && s[0] != '/' {
      HostScanSound(s[1..]);
      var r := HostScan(s[1..]);
      assert [s[0]] + r.0 + r.1 == [s[0]] + (r.0 + r.1);
      assert [s[0]] + s[1..] == s;
    }
  }

  /** A host without `/` followed by a rooted or empty path scans back into the two. */
  lemma {:induction false} HostScanOf(host: string, path: string)
    requires '/' !in host
    requires path == "" || path[0] == '/'
    ensures HostScan(host + path) == (host, path)
  {
    if |host| > 0 {
      assert (host + path)[0] == host[0] && (host + path)[1..] == host[1..] + path;
      assert '/' !in host[1..];
      HostScanOf(host[1..], path);
      assert [host[0]] + host[1..] == host;
    } else {
      assert host + path == path;
    }
  }

  lemma AuthorityTextSplit(rest: string)
    ensures AuthorityText(SplitAuthority(rest).0, SplitAuthority(rest).1) == rest
  {
    if DoubleSlash(rest) {
      var after := rest[2..];
      HostScanSound(after);
      var r := HostScan(after);
      assert "//" + r.0 + r.1 == "//" + (r.0 + r.1);
      assert rest == "//" + after;
    }
  }

  lemma SplitAuthorityText(authority: Option<string>, path: string)
    requires AuthorityFits(authority, path)
    ensures SplitAuthority(AuthorityText(authority, path)) == (authority, path)
  {
    match authority
    case None =>
    case Some(host) =>
      var rest := "//" + host + path;
      assert DoubleSlash(rest);
      assert rest[2..] == host + path;
      HostScanOf(host, path);
  }

  /** Round trip: formatting a parsed URL gives back the text. */
  lemma FormatParse(s: string)
    requires ParseWithScheme(s).Some?
    ensures Format(ParseWithScheme(s).value) == s
  {
    SchemeScanSound(s);
    AuthorityTextSplit(SchemeScan(s).value.1);
  }

  /** Round trip: parsing the text of a well-formed URL gives back the URL. */
  lemma ParseFormat(u: Url)
    requires WellFormed(u)
    ensures ParseWithScheme(Format(u)) == Some(u)
  {
    var tail := AuthorityText(u.authority, u.path);
    var s := Format(u);
    SchemeScanOf(u.scheme, tail);
    ColonTail(u.scheme, tail);
    SplitAuthorityText(u.authority, u.path);
  }

  /** Text without a colon has no scheme. */
  lemma NoColonNoScheme(s: string)
    requires ':' !in s
    ensures ParseWithScheme(s) == None
  {
    NoColonNoScan(s);
  }

  /** Text that does not start with a letter has no scheme: absolute and `./` paths are never URLs. */
  lemma NoSchemeWithoutLetter(s: string)
    requires |s| > 0 && !IsLetter(s[0])
    ensures ParseWithScheme(s) == None
  {
  }

  /** A relative path that is not a URL stays one when more segments are appended to it. */
  lemma NoSchemeAppend(b: string, rest: string)
    requires b != "" && ParseWithScheme(b) == None
    ensures ParseWithScheme(b + "/" + rest) == None
  {
    var s := b + "/" + rest;
    assert s == b + ("/" + rest);
    assert s[0] == b[0];
    if IsLetter(b[0]) {
      NoScanAppend(b, "/" + rest);
    }
  }

  /** `scheme://host/path` parses into its three parts. */
  lemma ParseAuthorityUrl(scheme: string, host: string, path: string)
    requires ValidScheme(scheme) && '/' !in host && (path == "" || path[0] == '/')
    ensures ParseWithScheme(scheme + "://" + host + path) == Some(Url(scheme, Some(host), path))
  {
    var u := Url(scheme, Some(host), path);
    assert Format(u) == scheme + "://" + host + path;
    ParseFormat(u);
  }

  /** A `file:///` prefix gives an empty authority and a path starting at the third slash. */
  lemma ParseFileTriple(x: string)
    ensures ParseWithScheme("file:///" + x) == Some(Url("file", Some(""), "/" + x))
  {
    var u := Url("file", Some(""), "/" + x);
    assert Format(u) == "file:///" + x;
    ParseFormat(u);
  }
}
