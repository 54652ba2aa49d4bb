/**
 * Python's `urllib.parse.urljoin(base_url, href)` for the base URL the scraper
 * resolves profile links against, "https://www.linkedin.com/", following the
 * way Python 3.12's `urlsplit` cleans and splits the reference.
 */
module UrlJoin {
  import opened Text

  const BaseUrl: string := "https://www.linkedin.com/"
  const Origin: string := "https://www.linkedin.com"

  predicate StartsWith(s: string, prefix: string) {
    |prefix| <= |s| && s[..|prefix|] == prefix
  }

  /** `urlsplit` first drops leading C0 control characters and spaces. */
  function StripLeadingControls(s: string): (r: string)
    ensures |r| <= |s|
    ensures r != [] ==> r[0] > ' '
  {
    if s != [] && s[0] <= ' ' then StripLeadingControls(s[1..]) else s
  }

  predicate IsUnsafe(c: char) {
    c == '\t' || c == '\r' || c == '\n'
  }

  /** ... then removes every tab, carriage return and line feed. */
  function RemoveUnsafe(s: string): (r: string)
    ensures |r| <= |s|
    ensures s != [] && !IsUnsafe(s[0]) ==> r != [] && r[0] == s[0]
  {
    if s == [] then []
    else (if IsUnsafe(s[0]) then [] else [s[0]]) + RemoveUnsafe(s[1..])
  }

  /** The reference as `urlsplit` parses it. */
  function Clean(href: string): (u: string)
    ensures |u| <= |href|
    ensures u != [] ==> u[0] > ' '
  {
    RemoveUnsafe(StripLeadingControls(href))
  }

  predicate IsAsciiLetter(c: char) {
    'a' <= c <= 'z' || 'A' <= c <= 'Z'
  }

  predicate IsSchemeChar(c: char) {
    IsAsciiLetter(c) || '0' <= c <= '9' || c == '+' || c == '-' || c == '.'
  }

  /** The position of the first ':' (the length when there is none). */
  function FirstColon(s: string): (i: nat)
    ensures i <= |s|
    ensures i < |s| ==> s[i] == ':'
  {
    if s == [] || s[0] == ':' then 0 else 1 + FirstColon(s[1..])
  }

  /** `urlsplit` reads a scheme: the text before the first ':', an ASCII letter followed by scheme characters. */
  predicate HasScheme(u: string) {
    var i := FirstColon(u);
    0 < i < |u| && IsAsciiLetter(u[0]) && SchemeChars(u[..i])
  }

  predicate SchemeChars(s: string) {
    s == [] || (IsSchemeChar(s[0]) && SchemeChars(s[1..]))
  }

  /** The reference names a scheme other than the base's, so `urljoin` returns it as it is. */
  predicate ForeignScheme(href: string) {
    var u := Clean(href);
    HasScheme(u) && Lower(u[..FirstColon(u)]) != "https"
  }

  /** A reference without a scheme, or whose scheme is dropped, against the base. */
  function JoinReference(rest: string): (url: string)
    ensures StartsWith(url, "https://")
  {
    if StartsWith(rest, "//") && |rest| > 2 && rest[2] != '/' && rest[2] != '?' && rest[2] != '#' then
      // a network location: the reference keeps it, with the base's scheme
      assert ("https:" + rest)[..8] == "https:" + rest[..2];
      "https:" + rest
    else
      var path := if StartsWith(rest, "//") then rest[2..] else rest;
      if StartsWith(path, "/") then
        assert (Origin + path)[..8] == Origin[..8];
        Origin + path
      else
        assert (BaseUrl + path)[..8] == BaseUrl[..8];
        BaseUrl + path
  }

  /**
   * `urljoin(base_url, href)`: a reference with another scheme is returned
   * unchanged; any other is resolved against the base, so it starts with
   * "https://", and a clean absolute https URL with a host is kept.
   */
  function ResolveUrl(href: string): (url: string)
    ensures url != ""
    ensures ForeignScheme(href) ==> url == href
    ensures !ForeignScheme(href) ==> StartsWith(url, "https://")
  {
    var u := Clean(href);
    if HasScheme(u) && Lower(u[..FirstColon(u)]) != "https" then href
    else if HasScheme(u) then JoinReference(u[FirstColon(u) + 1..])
    else JoinReference(u)
  }

  /** An absolute https URL with a host and nothing to clean comes back unchanged. */
  lemma KeepsAbsoluteHttps(href: string)
    requires StartsWith(href, "https://") && |href| > 8 && href[8] != '/' && href[8] != '?' && href[8] != '#'
    requires forall i :: 0 <= i < |href| ==> !IsUnsafe(href[i])
    ensures ResolveUrl(href) == href
  {
    assert StripLeadingControls(href) == href;
    NothingUnsafe(href);
    assert Clean(href) == href;
    SchemeAt(href, "https");
    assert Lower("https") == "https";
    var rest := href[6..];
    assert href[..8] == "https://";
    assert rest[..2] == href[6..8] && rest[2] == href[8];
    assert JoinReference(rest) == "https:" + rest;
    assert "https:" + rest == href;
  }

  /** A plain http URL keeps its scheme: `urljoin` with the https base returns it as it is. */
  lemma KeepsHttp(href: string)
    requires StartsWith(href, "http://")
    ensures ResolveUrl(href) == href
  {
    var u := Clean(href);
    assert StripLeadingControls(href) == href;
    PrefixSurvivesRemoveUnsafe(href, 5);
    assert u[..5] == "http:";
    assert u[..4] == u[..5][..4] && u[4] == u[..5][4];
    SchemeAt(u, "http");
    assert Lower("http") == "http";
  }

  /** A reference starting with a scheme name and ':' has that scheme. */
  lemma SchemeAt(u: string, name: string)
    requires name == "http" || name == "https"
    requires |name| < |u| && u[..|name|] == name && u[|name|] == ':'
    ensures HasScheme(u) && FirstColon(u) == |name| && u[..FirstColon(u)] == name
  {
    FirstColonAt(u, |name|);
    assert SchemeChars(name[4..]);
    assert SchemeChars(name[3..]);
    assert SchemeChars(name[2..]);
    assert SchemeChars(name[1..]);
  }

  lemma {:induction false} FirstColonAt(s: string, n: nat)
    requires n < |s| && s[n] == ':' && forall j :: 0 <= j < n ==> s[j] != ':'
    ensures FirstColon(s) == n
  {
    if n > 0 {
      FirstColonAt(s[1..], n - 1);
    }
  }

  lemma {:induction false} NothingUnsafe(s: string)
    requires forall i :: 0 <= i < |s| ==> !IsUnsafe(s[i])
    ensures RemoveUnsafe(s) == s
  {
    if s != [] {
      NothingUnsafe(s[1..]);
    }
  }

  /** A prefix without unsafe characters is kept by `RemoveUnsafe`. */
  lemma {:induction false} PrefixSurvivesRemoveUnsafe(s: string, n: nat)
    requires n <= |s| && forall i :: 0 <= i < n ==> !IsUnsafe(s[i])
    ensures n <= |RemoveUnsafe(s)| && RemoveUnsafe(s)[..n] == s[..n]
  {
    if n > 0 {
      PrefixSurvivesRemoveUnsafe(s[1..], n - 1);
      assert RemoveUnsafe(s) == [s[0]] + RemoveUnsafe(s[1..]);
    }
  }
}
