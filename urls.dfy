/**
 * URLs as the proxy handles them: the serialisation of a WHATWG `URL` object
 * split into its protocol, host, pathname, and the query and fragment kept
 * together. Parsing is restricted to absolute `http:` and `https:` URLs, the
 * only ones the mappings are applied to.
 */
module Urls {
  import opened Wrappers
  import opened Text

  /** A URL: `protocol` (with its colon), `host`, `pathname`, and `search + hash`. */
  datatype Url = Url(scheme: string, host: string, path: string, rest: string)

  /** `url.toString()` / `url.href`: `protocol//host pathname search hash`. */
  function Href(u: Url): string {
    u.scheme + "//" + u.host + u.path + u.rest
  }

  /** The longest prefix of `s` without a character of `stops`. */
  function Until(s: string, stops: set<char>): (r: string)
    ensures |r| <= |s| && r == s[..|r|]
    ensures forall k :: 0 <= k < |r| ==> r[k] !in stops
    ensures |r| == |s| || s[|r|] in stops
  {
    if |s| == 0 || s[0] in stops then [] else [s[0]] + Until(s[1..], stops)
  }

  /** What `Until` stops at comes right after it. */
  lemma {:induction false} UntilAppend(x: string, y: string, stops: set<char>)
    requires forall k :: 0 <= k < |x| ==> x[k] !in stops
    requires |y| == 0 || y[0] in stops
    ensures Until(x + y, stops) == x
  {
    if |x| > 0 {
      assert (x + y)[1..] == x[1..] + y;
      UntilAppend(x[1..], y, stops);
    } else {
      assert x + y == y;
    }
  }

  const HostStops: set<char> := {'/', '?', '#'}
  const PathStops: set<char> := {'?', '#'}

  /** The URL whose protocol is `scheme` and whose text after `//` is `tail`. */
  function Locate(scheme: string, tail: string): (u: Url)
    ensures u.scheme == scheme
    ensures Href(u) == scheme + "//" + tail
    ensures forall k :: 0 <= k < |u.host| ==> u.host[k] !in HostStops
    ensures forall k :: 0 <= k < |u.path| ==> u.path[k] !in PathStops
    ensures |u.rest| == 0 || u.rest[0] in PathStops
  {
    var host := Until(tail, HostStops);
    var after := tail[|host|..];
    var path := Until(after, PathStops);
    var rest := after[|path|..];
    assert after == path + rest;
    assert tail == host + after;
    Regroup(scheme + "//", host, path, rest);
    Url(scheme, host, path, rest)
  }

  /** Appending `a + (b + c)` is appending `a`, `b` and `c` in turn. */
  lemma Regroup(p: string, a: string, b: string, c: string)
    ensures p + (a + (b + c)) == p + a + b + c
  {
  }

  predicate WebScheme(s: string) {
    s == "http:" || s == "https:"
  }

  /** The URLs the parser produces: a web scheme, a non-empty host, and each part without the delimiters of the next. */
  predicate WellFormed(u: Url) {
    && WebScheme(u.scheme)
    && |u.host| > 0
    && (forall k :: 0 <= k < |u.host| ==> u.host[k] !in HostStops)
    && (|u.path| == 0 || u.path[0] == '/')
    && (forall k :: 0 <= k < |u.path| ==> u.path[k] !in PathStops)
    && (|u.rest| == 0 || u.rest[0] in PathStops)
  }

  /** The protocol `s` begins with, when it begins with `http://` or `https://`. */
  function SchemeOf(s: string): (r: Option<string>)
    ensures r.Some? ==> WebScheme(r.value) && |r.value| + 2 <= |s| && s[..|r.value| + 2] == r.value + "//"
  {
    if StartsWith(s, "http://") then Some("http:")
    else if StartsWith(s, "https://") then Some("https:")
    else None
  }

  /**
   * `new URL(s)` for an absolute `http:` or `https:` URL; `None` for any other
   * text. What it accepts it gives back well-formed, and serialising that gives
   * the text back.
   */
  function ParseUrl(s: string): (r: Option<Url>)
    ensures r.Some? ==> WellFormed(r.value) && Href(r.value) == s
  {
    match SchemeOf(s)
    case None => None
    case Some(scheme) =>
      SchemeSplit(s, scheme);
      var u := Locate(scheme, s[|scheme| + 2..]);
      if |u.host| == 0 || (|u.path| > 0 && u.path[0] != '/') then None else Some(u)
  }

  /** The protocol of a serialised URL is read back. */
  lemma SchemeOfHref(u: Url)
    requires WebScheme(u.scheme)
    ensures SchemeOf(Href(u)) == Some(u.scheme)
  {
    var s := Href(u);
    assert s == u.scheme + ("//" + u.host + u.path + u.rest);
    assert s[..|u.scheme| + 2] == u.scheme + "//";
    assert s[4] == u.scheme[4];
  }

  /** Splitting the text after `//` of a well-formed URL finds its host, path and rest. */
  lemma LocateParts(u: Url)
    requires WellFormed(u)
    ensures Locate(u.scheme, u.host + u.path + u.rest) == u
  {
    var tail := u.host + u.path + u.rest;
    assert tail == u.host + (u.path + u.rest);
    UntilAppend(u.host, u.path + u.rest, HostStops);
    assert tail[|u.host|..] == u.path + u.rest;
    UntilAppend(u.path, u.rest, PathStops);
    assert (u.path + u.rest)[|u.path|..] == u.rest;
  }

  /** Parsing a serialised well-formed URL gives it back. */
  lemma ParseHref(u: Url)
    requires WellFormed(u)
    ensures ParseUrl(Href(u)) == Some(u)
  {
    SchemeOfHref(u);
    LocateParts(u);
    assert Href(u)[|u.scheme| + 2..] == u.host + u.path + u.rest;
  }

  /** A text that begins with a protocol and `//` is that prefix and the rest. */
  lemma SchemeSplit(s: string, scheme: string)
    requires |scheme| + 2 <= |s| && s[..|scheme| + 2] == scheme + "//"
    ensures s == scheme + "//" + s[|scheme| + 2..]
  {
    assert s == s[..|scheme| + 2] + s[|scheme| + 2..];
  }
}
