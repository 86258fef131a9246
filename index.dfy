/**
 * The earlier, regular-expression revision of the proxy (src/index.ts): the
 * redirect test of the request handler, `isMobile`, and the two URL mappings
 * `url2UpstreamUrl` and `upstreamUrl2Url`, which overwrite the fields of the
 * URL object they are given and return that same object.
 *
 * Every regular expression here carries the `gi` flags, so its letters are
 * compared through ASCII lower case while what it captures keeps the case of
 * the text. A `\.` in a template literal loses its backslash; the dots inside
 * host names are read as literal dots, while the lone dot in front of the
 * front domain in the host test and the dot in `w/(api|load).php` match any
 * character but a line terminator.
 */
module Index {
  import opened Wrappers
  import opened Text
  import opened Registry
  import opened Urls
  import Helpers

  /** `config.domain` of this revision. */
  const Domain: string := "example.com"

  /** `config.redirect`: the status and the path prefixes of the index redirect. */
  const RedirectCode: int := 301
  const DesktopPrefix: string := "/zh"
  const MobilePrefix: string := "/zh/m"

  /** A WHATWG `URL` object: the fields the mappings read and overwrite. */
  class WebUrl {
    var scheme: string
    var host: string
    var path: string
    var rest: string

    constructor(u: Url)
      ensures Value() == u
    {
      scheme, host, path, rest := u.scheme, u.host, u.path, u.rest;
    }

    /** The URL the object currently holds. */
    function Value(): Url
      reads this
    {
      Url(scheme, host, path, rest)
    }

    /** `url.host = h`: the host parser lower-cases ASCII letters. */
    method SetHost(h: string)
      modifies this
      ensures Value() == old(Value()).(host := Lower(h))
    {
      host := Lower(h);
    }

    /** `url.pathname = p`. */
    method SetPathname(p: string)
      modifies this
      ensures Value() == old(Value()).(path := Helpers.SetPathname(p))
    {
      path := Helpers.SetPathname(p);
    }

    /** `url.href = scheme + "//" + tail`: the whole URL is parsed again. */
    method SetHref(scheme: string, tail: string)
      modifies this
      ensures Value() == Reparse(scheme, tail)
    {
      var u := Reparse(scheme, tail);
      Assign(u);
    }

    /** Overwrites every field with those of `u`. */
    method Assign(u: Url)
      modifies this
      ensures Value() == u
    {
      scheme, host, path, rest := u.scheme, u.host, u.path, u.rest;
    }
  }

  /**
   * Parsing `scheme//tail` again: the authority runs to the first `/`, `?` or
   * `#`, its host is what follows its last `@` and is lower-cased, an empty
   * path becomes `/`, and whatever follows the path is the query and fragment.
   */
  function Reparse(scheme: string, tail: string): (u: Url)
    ensures u.scheme == scheme && |u.path| > 0 && u.path[0] == '/'
  {
    var v := Locate(scheme, tail);
    Url(scheme, Lower(AfterCredentials(v.host)), Helpers.SetPathname(v.path), v.rest)
  }

  /**
   * The host part of an authority: the longest end of it with no `@`. What
   * comes before the last `@` is the username and password, which the model
   * does not keep.
   */
  function AfterCredentials(a: string): (h: string)
    ensures |h| <= |a| && h == a[|a| - |h|..]
    ensures forall k :: 0 <= k < |h| ==> h[k] != '@'
    ensures |h| < |a| ==> a[|a| - |h| - 1] == '@'
  {
    if |a| == 0 then a
    else if a[|a| - 1] == '@' then []
    else AfterCredentials(a[..|a| - 1]) + [a[|a| - 1]]
  }

  /** Text that stays in the host when it is parsed: no delimiter and no `@`. */
  predicate HostText(h: string) {
    forall k :: 0 <= k < |h| ==> h[k] !in HostStops && h[k] != '@'
  }

  // ------------------------------------------------------------ redirect test

  /** The names that `isMobile` looks for, case-insensitively. */
  const MobileNames: seq<string> := ["Android", "iPhone", "iPad", "iPod", "SymbianOS", "Windows Phone"]

  /** `isMobile`: a user agent is present and contains one of the names, in any case. */
  predicate IsMobile(userAgent: Option<string>) {
    userAgent.Some? && exists i :: 0 <= i < |MobileNames| && Contains(Lower(userAgent.value), Lower(MobileNames[i]))
  }

  /** The two revisions classify user agents alike: the names are the same once lower-cased. */
  lemma IsMobileAgrees(userAgent: Option<string>)
    ensures IsMobile(userAgent) <==> Helpers.MobileAgent(userAgent)
  {
    MobileNamesLowered();
  }

  lemma MobileNamesLowered()
    ensures |MobileNames| == |Helpers.DeviceList|
    ensures forall i :: 0 <= i < |MobileNames| ==> Lower(MobileNames[i]) == Lower(Helpers.DeviceList[i])
  {
    assert Lower("Android") == "android";
    assert Lower("iPhone") == "iphone";
    assert Lower("iPad") == "ipad";
    assert Lower("iPod") == "ipod";
    assert Lower("SymbianOS") == "symbianos";
    assert Lower("Windows Phone") == "windows phone";
    LowerFixed("android");
    LowerFixed("iphone");
    LowerFixed("ipad");
    LowerFixed("ipod");
    LowerFixed("symbianos");
    assert Lower("windows phone") == "windows phone";
  }

  /**
   * The texts after the leading `/` that the path test's negative lookahead
   * exempts: a region code, `w/api.php`, `w/load.php`, `api/`, `static/` or
   * `/www/`, each only as a prefix, compared in lower case.
   */
  predicate PathExempt(s: string) {
    || FirstPrefix(Regions, s).Some?
    || Helpers.WildcardAt(s, "w/api.php", 0)
    || Helpers.WildcardAt(s, "w/load.php", 0)
    || StartsWith(s, "api/")
    || StartsWith(s, "static/")
    || StartsWith(s, "/www/")
  }

  /** The path test: `/`, then no exempt prefix, then no line terminator up to the end. */
  predicate RedirectsPath(p: string) {
    && |p| >= 1 && p[0] == '/'
    && !PathExempt(Lower(p[1..]))
    && forall k :: 1 <= k < |p| ==> !Helpers.LineTerminator(p[k])
  }

  /** The host test's negative lookahead: the host starts with an optional subdomain and `wikimedia`. */
  predicate HostLookahead(l: string) {
    StartsWith(l, "wikimedia") || exists sd :: sd in Subdomains && StartsWith(l, sd + ".wikimedia")
  }

  /** The host test: no `wikimedia` host, any one character, the front domain, and no line terminator to the end. */
  predicate RedirectsHost(h: string) {
    && !HostLookahead(Lower(h))
    && |h| >= 12 && !Helpers.LineTerminator(h[0]) && Lower(h[1..12]) == Domain
    && forall k :: 12 <= k < |h| ==> !Helpers.LineTerminator(h[k])
  }

  /** What the handler answers: a redirect to the same origin, or the fetch of an upstream URL. */
  datatype Outcome = Redirect(location: string, status: int) | Fetch(target: string)

  /**
   * `handleRequest`: a request whose path or host passes the redirect test is
   * sent, with `/zh/m` (mobile) or `/zh` in front of its path, back to the
   * proxy; any other is fetched from the URL `url2UpstreamUrl` turns it into.
   */
  method HandleRequest(url: WebUrl, userAgent: Option<string>) returns (outcome: Outcome)
    modifies url
    ensures outcome.Redirect? <==> RedirectsPath(old(url.path)) || RedirectsHost(old(url.host))
    ensures outcome.Redirect? ==>
      && url.Value() == old(url.Value()).(path := (if IsMobile(userAgent) then MobilePrefix else DesktopPrefix) + old(url.path))
      && outcome == Redirect(Href(url.Value()), RedirectCode)
    ensures outcome.Fetch? ==> url.Value() == UpstreamTarget(old(url.Value())) && outcome.target == Href(url.Value())
  {
    if RedirectsPath(url.path) || RedirectsHost(url.host) {
      if IsMobile(userAgent) {
        url.SetPathname(MobilePrefix + url.path);
      } else {
        url.SetPathname(DesktopPrefix + url.path);
      }
      return Redirect(Href(url.Value()), RedirectCode);
    }
    var upstream := Url2UpstreamUrl(url);
    return Fetch(Href(upstream.Value()));
  }

  // -------------------------------------------------------- url2UpstreamUrl

  /** The first family `f` of `fs`, in order, such that `s` starts with `f + suffix`. */
  function FirstFamily(fs: seq<string>, suffix: string, s: string): (r: Option<string>)
    ensures r.Some? ==> r.value in fs && StartsWith(s, r.value + suffix)
    ensures r.None? ==> forall f :: f in fs ==> !StartsWith(s, f + suffix)
  {
    if |fs| == 0 then None
    else if StartsWith(s, fs[0] + suffix) then Some(fs[0])
    else FirstFamily(fs[1..], suffix, s)
  }

  /** `host.replace(/^(families)\.example\.com/gi, "$1.org")`: a front family host goes to its `.org` host. */
  function UpstreamHost(host: string): string {
    match FirstFamily(Families, "." + Domain, Lower(host))
    case None => host
    case Some(f) => host[..|f|] + ".org" + host[|f| + 1 + |Domain|..]
  }

  /**
   * The URL `url2UpstreamUrl` leaves in its argument. A path starting `/www`
   * goes to the `www.` host; a path starting with a region code (the first in
   * list order that is a prefix, with an optional `/m` after it) goes to the
   * region's host; in both cases the URL is parsed again from its protocol,
   * host and path. Any other URL only gets its host mapped.
   */
  function UpstreamTarget(u: Url): (r: Url)
    ensures r.scheme == u.scheme
  {
    var upstreamHost := UpstreamHost(u.host);
    if StartsWithIgnoringCase(u.path, "/www") then
      Reparse(u.scheme, "www." + upstreamHost + u.path[4..])
    else
      match PathRegion(u.path)
      case None => u.(host := Lower(upstreamHost))
      case Some(c) => Reparse(u.scheme, RegionHostWithPath(u.path, c, upstreamHost))
  }

  /** `regionRegex.exec(pathname)`: the code of the first region, in list order, that follows the leading `/`. */
  function PathRegion(path: string): (r: Option<string>)
    ensures r.Some? ==> 1 + |r.value| <= |path| && path[0] == '/'
  {
    if |path| == 0 || path[0] != '/' then None else FirstPrefix(Regions, Lower(path[1..]))
  }

  /**
   * The path with the matched region (as written), and `/m` when it follows,
   * replaced by the region's upstream host: `<region>.m.<host>` or `<region>.<host>`.
   */
  function RegionHostWithPath(path: string, c: string, upstreamHost: string): string
    requires 1 + |c| <= |path|
  {
    var region := path[1..1 + |c|];
    var after := path[1 + |c|..];
    if StartsWithIgnoringCase(after, "/m") then region + "." + after[1..2] + "." + upstreamHost + after[2..]
    else region + "." + upstreamHost + after
  }

  /** `url2UpstreamUrl`: overwrites the URL with its upstream form and returns the same object. */
  method Url2UpstreamUrl(url: WebUrl) returns (r: WebUrl)
    modifies url
    ensures r == url && url.Value() == UpstreamTarget(old(url.Value()))
  {
    var upstreamHost := UpstreamHost(url.host);
    if StartsWithIgnoringCase(url.path, "/www") {
      var hostWithPath := "www." + upstreamHost + url.path[4..];
      url.SetHref(url.scheme, hostWithPath);
      return url;
    }
    var regionMatch := PathRegion(url.path);
    if regionMatch.Some? {
      var hostWithPath := RegionHostWithPath(url.path, regionMatch.value, upstreamHost);
      url.SetHref(url.scheme, hostWithPath);
      return url;
    } else {
      url.SetHost(upstreamHost);
      return url;
    }
  }

  // -------------------------------------------------------- upstreamUrl2Url

  /** The family a `www.<family>.org` host names, compared in lower case. */
  function WwwFamily(h: string): Option<string> {
    if StartsWith(Lower(h), "www.") then FirstFamily(Families, ".org", Lower(h[4..])) else None
  }

  /** What the region pattern captures of a host: the region code, the `m`, and the family. */
  datatype HostMatch = HostMatch(code: Option<string>, mobile: Option<string>, family: string)

  /** The family a host starts with, followed by `.org`, as the text of the host spells it. */
  function FamilyAt(s: string): (r: Option<string>)
    ensures r.Some? ==> |r.value| + 4 <= |s|
  {
    match FirstFamily(Families, ".org", Lower(s))
    case None => None
    case Some(f) => Some(s[..|f|])
  }

  /** The pattern with the code `c` at the start of `h`: `.m.` and a family, else `.` and a family. */
  function TryCode(c: string, h: string): Option<HostMatch>
    requires |c| <= |h|
  {
    var after := h[|c|..];
    if StartsWith(Lower(after), ".m.") && FamilyAt(after[3..]).Some? then
      Some(HostMatch(Some(h[..|c|]), Some(after[1..2]), FamilyAt(after[3..]).value))
    else if StartsWith(Lower(after), ".") && FamilyAt(after[1..]).Some? then
      Some(HostMatch(Some(h[..|c|]), None, FamilyAt(after[1..]).value))
    else None
  }

  /** The codes of `codes` tried in order, each as a case-insensitive prefix of `h`. */
  function MatchWithCodes(codes: seq<string>, h: string): Option<HostMatch> {
    if |codes| == 0 then None
    else if StartsWith(Lower(h), codes[0]) && TryCode(codes[0], h).Some? then TryCode(codes[0], h)
    else MatchWithCodes(codes[1..], h)
  }

  /** `^((regions)(\.(m))?\.)?(families)\.org`: with a region group if one fits, else a family alone. */
  function RegionExec(h: string): Option<HostMatch> {
    match MatchWithCodes(Regions, h)
    case Some(m) => Some(m)
    case None =>
      match FamilyAt(h)
      case Some(f) => Some(HostMatch(None, None, f))
      case None => None
  }

  /** An absent capture interpolated into a template literal reads `undefined`. */
  function Interpolated(o: Option<string>): string {
    match o
    case Some(s) => s
    case None => "undefined"
  }

  /**
   * The URL `upstreamUrl2Url` leaves in its argument. `www.<f>.org` goes to
   * `<f>.<domain>` under `/www`; a region host goes to the family label glued to
   * the domain, with `/<region>/<m>` in front of the path; any other host is
   * left alone.
   */
  function ProxiedTarget(u: Url): (r: Url)
    ensures r.scheme == u.scheme && r.rest == u.rest
    ensures |r.path| > 0 && r.path != u.path ==> r.path[0] == '/'
  {
    match WwwFamily(u.host)
    case Some(f) =>
      u.(host := Lower(u.host[4..4 + |f|] + "." + Domain + u.host[8 + |f|..]), path := Helpers.SetPathname("/www" + u.path))
    case None =>
      match RegionExec(u.host)
      case None => u
      case Some(m) =>
        var host := Lower(m.family + Domain);
        if m.code.Some? || m.mobile.Some? then
          u.(host := host, path := Helpers.SetPathname(StripTrailingSlashes("/" + Interpolated(m.code) + "/" + Interpolated(m.mobile)) + u.path))
        else
          u.(host := host)
  }

  /** `upstreamUrl2Url`: overwrites the URL with its front form and returns the same object. */
  method UpstreamUrl2Url(url: WebUrl) returns (r: WebUrl)
    modifies url
    ensures r == url && url.Value() == ProxiedTarget(old(url.Value()))
  {
    var upstreamHost := url.host;
    var upstreamPathname := url.path;
    var www := WwwFamily(upstreamHost);
    if www.Some? {
      var f := www.value;
      url.SetHost(upstreamHost[4..4 + |f|] + "." + Domain + upstreamHost[8 + |f|..]);
      url.SetPathname("/www" + upstreamPathname);
      return url;
    }
    var regionMatch := RegionExec(upstreamHost);
    if regionMatch.Some? {
      var m := regionMatch.value;
      url.SetHost(m.family + Domain);
      if m.code.Some? || m.mobile.Some? {
        var prefix := StripTrailingSlashes("/" + Interpolated(m.code) + "/" + Interpolated(m.mobile));
        url.SetPathname(prefix + upstreamPathname);
      }
    }
    return url;
  }

  // ------------------------------------------------------- the redirect test

  /** The bare root is redirected: nothing follows the `/` for the lookahead to find. */
  lemma RootRedirected()
    ensures RedirectsPath("/")
  {
    assert Lower("/"[1..]) == [];
    assert FirstPrefix(Regions, []).None? by {
      forall c | c in Regions
        ensures !StartsWith([], c)
      {
        RegionShape(c);
      }
    }
  }

  /** A path that starts with a region code is not redirected, whatever follows the code. */
  lemma RegionPathNotRedirected(c: string, rest: string)
    requires IsRegion(c)
    ensures !RedirectsPath("/" + c + rest)
  {
    var p := "/" + c + rest;
    assert p[1..] == c + rest;
    LowerConcat(c, rest);
    CodeLowerCase(c);
    assert StartsWith(Lower(p[1..]), c);
  }

  /** A region code is written in lower case. */
  lemma CodeLowerCase(c: string)
    requires IsRegion(c)
    ensures Lower(c) == c
  {
    RegionShape(c);
  }

  /**
   * Every path that starts with `/www`, in any case, passes the path test: `www`
   * begins no region code and no exempt prefix, and `/www/` is exempt only after
   * a second slash. So the `www` branch of `url2UpstreamUrl` is never reached
   * from the handler.
   */
  lemma WwwPathRedirected(p: string)
    requires StartsWithIgnoringCase(p, "/www")
    requires forall k :: 0 <= k < |p| ==> !Helpers.LineTerminator(p[k])
    ensures RedirectsPath(p)
  {
    var s := Lower(p[1..]);
    LowerPrefix(p, 1);
    assert |s| >= 3 && s[0] == 'w' && s[1] == 'w' && s[2] == 'w';
    WwwNotExempt(s);
  }

  /** Nothing that begins with `www` is exempt. */
  lemma WwwNotExempt(s: string)
    requires |s| >= 3 && s[0] == 'w' && s[1] == 'w' && s[2] == 'w'
    ensures !PathExempt(s)
  {
    WBeginsNoRegion(s);
    assert "w/api.php"[1] == '/' && "w/load.php"[1] == '/';
    assert !StartsWith(s, "api/") && !StartsWith(s, "static/") && !StartsWith(s, "/www/");
  }

  /** The host test's lookahead cannot hold once a character and the front domain follow. */
  lemma HostLookaheadRedundant(h: string)
    ensures RedirectsHost(h) <==>
      |h| >= 12 && !Helpers.LineTerminator(h[0]) && Lower(h[1..12]) == Domain
      && forall k :: 12 <= k < |h| ==> !Helpers.LineTerminator(h[k])
  {
    if |h| >= 12 && Lower(h[1..12]) == Domain {
      var l := Lower(h);
      LowerPrefix(h, 12);
      LowerPrefix(h, 1);
      assert l[1] == 'e' && l[2] == 'x';
      forall sd | sd in Subdomains
        ensures !StartsWith(l, sd + ".wikimedia")
      {
      }
    }
  }

  /** A front host of a family is not caught by the host test: only one character may come before the domain. */
  lemma FamilyHostNotRedirected(f: string, t: string)
    requires f in Families
    ensures !RedirectsHost(f + "." + Domain + t)
  {
    var h := f + "." + Domain + t;
    assert h[1] == f[1] == 'i';
  }

  /**
   * The dot before the front domain in the host test matches one character of
   * any kind, so the test catches a host made of one character glued to the
   * domain...
   */
  lemma GluedCharacterHostRedirected(c: char, t: string)
    requires !Helpers.LineTerminator(c)
    requires forall k :: 0 <= k < |t| ==> !Helpers.LineTerminator(t[k])
    ensures RedirectsHost([c] + Domain + t)
  {
    var h := [c] + Domain + t;
    assert h[1..12] == Domain;
    LowerFixed(Domain);
    forall k | 12 <= k < |h|
      ensures !Helpers.LineTerminator(h[k])
    {
      assert h[k] == t[k - 12];
    }
    HostLookaheadRedundant(h);
  }

  /** ...but neither a one-letter label with its dot nor the bare front domain. */
  lemma DottedHostNotRedirected(c: char, t: string)
    ensures !RedirectsHost([c] + "." + Domain + t)
    ensures !RedirectsHost(Domain + t)
  {
    var h := [c] + "." + Domain + t;
    assert |h| >= 12 ==> Lower(h[1..12])[0] == '.';
    assert |Domain + t| >= 12 ==> Lower((Domain + t)[1..12])[0] == 'x';
  }

  // ------------------------------------------------------- url2UpstreamUrl

  /** The family names are lower-case letters beginning `wi`, with no dot and no URL delimiter. */
  lemma FamiliesShape()
    ensures forall g :: g in Families ==> |g| >= 8 && g[0] == 'w' && g[1] == 'i' && LabelShaped(g)
  {
  }

  /** A label is a host name with no dot, no upper case and no URL delimiter. */
  lemma LabelPlain(g: string)
    requires LabelShaped(g)
    ensures '.' !in g && LowerCased(g) && HostText(g)
  {
    LabelDotless(g);
  }

  /** Two dotless names that each begin a text followed by a dot are the same name. */
  lemma DotlessPrefixUnique(f: string, g: string, s: string)
    requires '.' !in f && '.' !in g
    requires StartsWith(s, f + ".") && StartsWith(s, g + ".")
    ensures f == g
  {
    assert s[|f|] == '.' && s[|g|] == '.';
    assert forall k :: 0 <= k < |f| ==> s[k] == f[k];
    assert forall k :: 0 <= k < |g| ==> s[k] == g[k];
  }

  /** The family alternation, tried in order, picks the family the text begins with. */
  lemma FirstFamilyOf(f: string, suffix: string, t: string)
    requires f in Families && |suffix| > 0 && suffix[0] == '.'
    ensures FirstFamily(Families, suffix, f + suffix + t) == Some(f)
  {
    FamiliesShape();
    FirstLabelOf(Families, f, suffix, t);
  }

  /** Among one-label names, the first whose text follows with a dot is the one the text begins with. */
  lemma FirstLabelOf(fs: seq<string>, f: string, suffix: string, t: string)
    requires forall g :: g in fs ==> LabelShaped(g)
    requires f in fs && |suffix| > 0 && suffix[0] == '.'
    ensures FirstFamily(fs, suffix, f + suffix + t) == Some(f)
  {
    var s := f + suffix + t;
    assert StartsWith(s, f + suffix);
    var r := FirstFamily(fs, suffix, s);
    assert r.Some?;
    var g := r.value;
    LabelPlain(f);
    LabelPlain(g);
    assert StartsWith(s, f + ".") && StartsWith(s, g + ".");
    DotlessPrefixUnique(f, g, s);
  }

  /**
   * The host replacement turns a front host `<family>.<domain>` (in any case)
   * into `<family>.org`, keeping the family as written and whatever follows the
   * domain, such as a port.
   */
  lemma UpstreamHostOfFamily(f: string, h: string)
    requires f in Families && StartsWithIgnoringCase(h, f + "." + Domain)
    ensures UpstreamHost(h) == h[..|f|] + ".org" + h[|f| + 1 + |Domain|..]
  {
    var suffix := "." + Domain;
    assert f + "." + Domain == f + suffix;
    var t := PrefixRest(Lower(h), f + suffix);
    FirstFamilyOf(f, suffix, t);
  }

  /** A text that starts with `p` is `p` and the rest. */
  lemma PrefixRest(s: string, p: string) returns (t: string)
    requires StartsWith(s, p)
    ensures s == p + t && t == s[|p|..]
  {
    t := s[|p|..];
    assert s == s[..|p|] + t;
  }

  /** A host that begins with no front family host is left as it is. */
  lemma UpstreamHostOfOther(h: string)
    requires forall f :: f in Families ==> !StartsWithIgnoringCase(h, f + "." + Domain)
    ensures UpstreamHost(h) == h
  {
    forall f | f in Families
      ensures !StartsWith(Lower(h), f + ("." + Domain))
    {
      assert f + "." + Domain == f + ("." + Domain);
    }
  }

  /** Parsing a host with no delimiter and a path with no query or fragment gives them back. */
  lemma ReparseHostPath(scheme: string, host: string, p: string)
    requires HostText(host)
    requires |p| == 0 || p[0] == '/'
    requires forall k :: 0 <= k < |p| ==> p[k] !in PathStops
    ensures Reparse(scheme, host + p) == Url(scheme, Lower(host), Helpers.SetPathname(p), "")
  {
    UntilAppend(host, p, HostStops);
    assert (host + p)[|host|..] == p;
    UntilAppend(p, [], PathStops);
    assert p + [] == p;
    assert AfterCredentials(host) == host;
  }

  /** Letters, dots and hyphens are their own lower case. */
  lemma LowerCasedJoin(a: string, b: string)
    requires LowerCased(a) && LowerCased(b)
    ensures LowerCased(a + b) && Lower(a + b) == a + b
  {
    assert forall k :: 0 <= k < |a + b| ==> (a + b)[k] == if k < |a| then a[k] else b[k - |a|];
    LowerOfLowerCased(a + b);
  }

  /** A front host of a family is in lower case already. */
  lemma FrontHostLowerCased(f: string)
    requires LabelShaped(f)
    ensures LowerCased(f) && LowerCased(f + "." + Domain) && LowerCased(f + ".org")
  {
    LabelPlain(f);
    assert LowerCased("." + Domain) && LowerCased(".org");
    LowerCasedJoin(f, "." + Domain);
    LowerCasedJoin(f, ".org");
  }

  /** A family is a label: lower-case letters, beginning `wi`. */
  lemma FamilyLabel(f: string)
    requires f in Families
    ensures LabelShaped(f) && |f| >= 8 && f[0] == 'w' && f[1] == 'i'
  {
  }

  /** The front host of a family goes to the family's `.org` host. */
  lemma UpstreamHostOfFrontHost(f: string)
    requires f in Families
    ensures UpstreamHost(f + "." + Domain) == f + ".org"
  {
    var h := f + "." + Domain;
    FamilyLabel(f);
    FrontHostLowerCased(f);
    LowerOfLowerCased(h);
    UpstreamHostOfFamily(f, h);
    assert h[..|f|] == f && h[|f| + 1 + |Domain|..] == [];
  }

  /** Parsing `www.<label>.org` and a path gives that host and path back, with no query. */
  lemma ReparseWwwHost(scheme: string, f: string, p: string)
    requires LabelShaped(f)
    requires |p| == 0 || p[0] == '/'
    requires forall k :: 0 <= k < |p| ==> p[k] !in PathStops
    ensures Reparse(scheme, "www." + f + ".org" + p) == Url(scheme, "www." + f + ".org", Helpers.SetPathname(p), "")
  {
    var host := "www." + f + ".org";
    LabelPlain(f);
    FrontHostLowerCased(f);
    assert host == "www." + (f + ".org");
    LowerCasedJoin("www.", f + ".org");
    ReparseHostPath(scheme, host, p);
  }

  /** The `www` branch of `UpstreamTarget`, on a path `/www` and then `p`. */
  lemma UpstreamTargetWww(u: Url, p: string)
    requires u.path == "/www" + p
    ensures UpstreamTarget(u) == Reparse(u.scheme, "www." + UpstreamHost(u.host) + p)
  {
    WwwPathParts(u.path, p);
  }

  lemma WwwPathParts(path: string, p: string)
    requires path == "/www" + p
    ensures StartsWithIgnoringCase(path, "/www") && path[4..] == p
  {
    LowerPrefix(path, 4);
    assert path[..4] == "/www";
  }

  /**
   * On a family front host, a path `/www` and then any `t` (no slash is needed
   * after `www`) goes to `scheme//www.<family>.org` followed directly by `t`,
   * parsed again.
   */
  lemma UpstreamOfWwwTail(u: Url, f: string, t: string)
    requires f in Families && u.host == f + "." + Domain
    requires u.path == "/www" + t
    ensures UpstreamTarget(u) == Reparse(u.scheme, "www." + f + ".org" + t)
  {
    UpstreamTargetWww(u, t);
    UpstreamHostOfFrontHost(f);
    Regroup("www.", f, ".org", t);
  }

  /**
   * So a path `/www` and then a path `p` goes to the host `www.<family>.org` and
   * the path `p`, and the query and fragment are lost: the URL is parsed again
   * from its protocol, host and path only.
   */
  lemma UpstreamOfWwwPath(u: Url, f: string, p: string)
    requires f in Families && u.host == f + "." + Domain
    requires u.path == "/www" + p
    requires |p| == 0 || p[0] == '/'
    requires forall k :: 0 <= k < |p| ==> p[k] !in PathStops
    ensures UpstreamTarget(u) == Url(u.scheme, "www." + f + ".org", Helpers.SetPathname(p), "")
  {
    UpstreamOfWwwTail(u, f, p);
    FamilyLabel(f);
    ReparseWwwHost(u.scheme, f, p);
  }

  /** A path that begins with a region code is not a `/www` path. */
  lemma RegionPathNotWww(path: string)
    requires PathRegion(path).Some?
    ensures !StartsWithIgnoringCase(path, "/www")
  {
    var x := path[1..];
    assert path == "/" + x;
    RegionTextNotWww(Lower(x));
    if StartsWithIgnoringCase(path, "/www") {
      SlashedWww(x);
    }
  }

  /** A path `/x` begins with `/www` in any case only when `x` begins with `www`. */
  lemma SlashedWww(x: string)
    requires StartsWithIgnoringCase("/" + x, "/www")
    ensures StartsWith(Lower(x), "www")
  {
    SlashLower(x);
    assert Lower(x)[..3] == ("/" + Lower(x))[1..4];
  }

  /** Lower case leaves a leading slash alone. */
  lemma SlashLower(x: string)
    ensures Lower("/" + x) == "/" + Lower(x)
  {
    LowerConcat("/", x);
  }

  /** A text that begins with a region code does not begin with `www`. */
  lemma RegionTextNotWww(s: string)
    requires FirstPrefix(Regions, s).Some?
    ensures !StartsWith(s, "www")
  {
    if StartsWith(s, "www") {
      WBeginsNoRegion(s);
    }
  }

  /** The region branch of `UpstreamTarget`. */
  lemma UpstreamTargetRegion(u: Url, c: string)
    requires PathRegion(u.path) == Some(c)
    ensures UpstreamTarget(u) == Reparse(u.scheme, RegionHostWithPath(u.path, c, UpstreamHost(u.host)))
  {
    RegionPathNotWww(u.path);
  }

  /** The host and path `RegionHostWithPath` builds for a path `/`, a code `c` and `rest`. */
  lemma RegionHostWithPathOf(path: string, c: string, rest: string, host: string)
    requires path == "/" + c + rest
    ensures 1 + |c| <= |path|
    ensures RegionHostWithPath(path, c, host) ==
      if StartsWithIgnoringCase(rest, "/m") then c + "." + rest[1..2] + "." + host + rest[2..]
      else c + "." + host + rest
  {
    assert path[1..1 + |c|] == c && path[1 + |c|..] == rest;
  }

  /**
   * On a family front host, a path that begins with a region code `c`, chosen
   * as the first code in list order that is a prefix, and is not followed by
   * `/m` goes to `scheme//c.<family>.org` followed directly by the rest of the
   * path, which is parsed again.
   */
  lemma UpstreamOfRegionPath(u: Url, f: string, c: string, rest: string)
    requires f in Families && u.host == f + "." + Domain
    requires u.path == "/" + c + rest && PathRegion(u.path) == Some(c)
    requires !StartsWithIgnoringCase(rest, "/m")
    ensures UpstreamTarget(u) == Reparse(u.scheme, c + "." + f + ".org" + rest)
  {
    UpstreamOfRegionPathAnyHost(u, c, rest);
    UpstreamHostOfFrontHost(f);
    Regroup(c + ".", f, ".org", rest);
  }

  lemma UpstreamOfRegionPathAnyHost(u: Url, c: string, rest: string)
    requires u.path == "/" + c + rest && PathRegion(u.path) == Some(c)
    requires !StartsWithIgnoringCase(rest, "/m")
    ensures UpstreamTarget(u) == Reparse(u.scheme, c + "." + UpstreamHost(u.host) + rest)
  {
    UpstreamTargetRegion(u, c);
    RegionHostWithPathOf(u.path, c, rest, UpstreamHost(u.host));
  }

  /**
   * The same with `/m` after the code: the host gets the `m` label and the `/m`
   * is consumed, whatever follows it.
   */
  lemma UpstreamOfMobileRegionPath(u: Url, f: string, c: string, rest: string)
    requires f in Families && u.host == f + "." + Domain
    requires u.path == "/" + c + "/m" + rest && PathRegion(u.path) == Some(c)
    ensures UpstreamTarget(u) == Reparse(u.scheme, c + ".m." + f + ".org" + rest)
  {
    UpstreamOfMobileRegionPathAnyHost(u, c, rest);
    UpstreamHostOfFrontHost(f);
    Regroup(c + ".m.", f, ".org", rest);
  }

  lemma UpstreamOfMobileRegionPathAnyHost(u: Url, c: string, rest: string)
    requires u.path == "/" + c + "/m" + rest && PathRegion(u.path) == Some(c)
    ensures UpstreamTarget(u) == Reparse(u.scheme, c + ".m." + UpstreamHost(u.host) + rest)
  {
    var after := "/m" + rest;
    assert u.path == "/" + c + after;
    UpstreamTargetRegion(u, c);
    MobileMarker(after, rest);
    RegionHostWithPathOf(u.path, c, after, UpstreamHost(u.host));
    MobileLabels(c, UpstreamHost(u.host), rest);
  }

  lemma MobileMarker(after: string, rest: string)
    requires after == "/m" + rest
    ensures StartsWithIgnoringCase(after, "/m") && after[1..2] == "m" && after[2..] == rest
  {
    LowerPrefix(after, 2);
    assert after[..2] == "/m";
  }


  /** Appending `x + y` is appending `x` and then `y`. */
  lemma Regroup(p: string, x: string, y: string, q: string)
    ensures p + (x + y) + q == p + x + y + q
  {
  }

  lemma MobileLabels(c: string, h: string, q: string)
    ensures c + "." + "m" + "." + h + q == c + ".m." + h + q
  {
    assert "." + "m" + "." == ".m.";
    assert c + "." + "m" + "." + h + q == c + ("." + "m" + ".") + h + q;
  }

  // ------------------------------------------------------- upstreamUrl2Url

  /** Lower case keeps dots where they are and makes none. */
  lemma LowerDots(a: string, y: string)
    requires '.' !in a
    ensures Lower(a + "." + y) == Lower(a) + "." + Lower(y) && '.' !in Lower(a)
  {
    LowerConcat(a + ".", y);
    LowerConcat(a, ".");
  }

  /** A code whose pattern succeeds is followed by a dot in the host. */
  lemma TryCodeDot(c: string, h: string)
    requires StartsWith(Lower(h), c) && TryCode(c, h).Some?
    ensures StartsWith(Lower(h), c + ".")
  {
    var after := h[|c|..];
    LowerPrefix(h, |c|);
    TryCodeAfter(c, h);
    assert Lower(h)[|c|] == Lower(after)[0];
  }

  /** The code pattern accepts only a host whose text after the code starts with a dot. */
  lemma TryCodeAfter(c: string, h: string)
    requires |c| <= |h| && TryCode(c, h).Some?
    ensures |Lower(h[|c|..])| > 0 && Lower(h[|c|..])[0] == '.'
  {
  }

  /**
   * On a host `a.y` whose first label `a` has no dot, the region alternation,
   * tried in list order over dotless codes, succeeds only with the code that is
   * `a` itself (in lower case), and then exactly when that code's pattern does.
   */
  lemma {:induction false} MatchWithCodesAt(codes: seq<string>, a: string, y: string)
    requires '.' !in a
    requires forall c :: c in codes ==> '.' !in c
    ensures MatchWithCodes(codes, a + "." + y) ==
      if Lower(a) in codes && TryCode(Lower(a), a + "." + y).Some? then TryCode(Lower(a), a + "." + y) else None
  {
    var h := a + "." + y;
    LowerDots(a, y);
    assert StartsWith(Lower(h), Lower(a));
    if |codes| > 0 {
      MatchWithCodesAt(codes[1..], a, y);
      var c := codes[0];
      assert Lower(a) in codes <==> c == Lower(a) || Lower(a) in codes[1..];
      if StartsWith(Lower(h), c) && TryCode(c, h).Some? {
        TryCodeDot(c, h);
        DotlessPrefixUnique(c, Lower(a), Lower(h));
      }
    }
  }

  /** A family followed by `.org` is found at the start of a host, as written. */
  lemma FamilyAtOf(f: string, t: string)
    requires f in Families
    ensures FamilyAt(f + ".org" + t) == Some(f)
  {
    var s := f + ".org" + t;
    FamilyLabel(f);
    FrontHostLowerCased(f);
    LowerOfLowerCased(f + ".org");
    LowerConcat(f + ".org", t);
    assert Lower(s) == f + ".org" + Lower(t);
    FirstFamilyOf(f, ".org", Lower(t));
    assert s[..|f|] == f;
  }

  /** The pattern of a code followed by `.m.` and a text that begins with a family. */
  lemma TryCodeMobileAt(c: string, x: string, f: string)
    requires FamilyAt(x) == Some(f)
    ensures TryCode(c, c + ".m." + x) == Some(HostMatch(Some(c), Some("m"), f))
  {
    var h := c + ".m." + x;
    var after := h[|c|..];
    assert h[..|c|] == c;
    assert after == ".m." + x && after[3..] == x && after[1..2] == "m";
    LowerConcat(".m.", x);
    assert Lower(".m.") == ".m.";
    assert StartsWith(Lower(after), ".m.");
  }

  /** The pattern of a code followed by `.` and a text that begins with a family. */
  lemma TryCodeDesktopAt(c: string, x: string, f: string)
    requires FamilyAt(x) == Some(f) && |x| > 0 && Lower(x)[0] == 'w'
    ensures TryCode(c, c + "." + x) == Some(HostMatch(Some(c), None, f))
  {
    var h := c + "." + x;
    var after := h[|c|..];
    assert h[..|c|] == c;
    assert after == "." + x && after[1..] == x;
    LowerConcat(".", x);
    assert Lower(".") == ".";
    assert Lower(after)[1] == 'w';
    assert !StartsWith(Lower(after), ".m.");
    assert StartsWith(Lower(after), ".");
  }

  /** A family text begins with `w` in lower case. */
  lemma FamilyTextStart(f: string, t: string)
    requires f in Families
    ensures Lower(f + ".org" + t)[0] == 'w'
  {
    FamilyLabel(f);
    assert (f + ".org" + t)[0] == 'w';
  }

  /** No region code holds a dot. */
  lemma RegionsDotless()
    ensures forall c :: c in Regions ==> '.' !in c
  {
    forall c | c in Regions
      ensures '.' !in c
    {
      RegionShape(c);
    }
  }

  /** `www.<f>.org…` is recognised as the `www` host of family `f`. */
  lemma WwwFamilyOf(f: string, t: string)
    requires f in Families
    ensures WwwFamily("www." + f + ".org" + t) == Some(f)
  {
    var x := f + ".org" + t;
    var h := "www." + x;
    assert "www." + f + ".org" + t == h;
    LowerConcat("www.", x);
    assert Lower("www.") == "www.";
    assert StartsWith(Lower(h), "www.");
    assert h[4..] == x;
    FamilyLabel(f);
    FrontHostLowerCased(f);
    LowerOfLowerCased(f + ".org");
    LowerConcat(f + ".org", t);
    assert Lower(x) == f + ".org" + Lower(t);
    FirstFamilyOf(f, ".org", Lower(t));
  }

  /** A host whose first label is a region code is not a `www` host. */
  lemma RegionHostNotWwwHost(c: string, y: string)
    requires IsRegion(c)
    ensures WwwFamily(c + "." + y).None?
  {
    RegionShape(c);
    WwwNotRegion();
    CodedHostNotWwwHost(c, y);
  }

  /** A host `c.m.…` whose first label is a region code is not a `www` host. */
  lemma MobileRegionHostNotWwwHost(c: string, x: string)
    requires IsRegion(c)
    ensures WwwFamily(c + ".m." + x).None?
  {
    RegionShape(c);
    WwwNotRegion();
    MobileCodedHostNotWwwHost(c, x);
  }

  /** A host whose first label is code-shaped but not `www` is not a `www` host. */
  lemma CodedHostNotWwwHost(c: string, y: string)
    requires CodeShaped(c) && c != "www"
    ensures WwwFamily(c + "." + y).None?
  {
    var h := c + "." + y;
    assert '.' !in c;
    assert Lower(c) == c;
    LowerDots(c, y);
    if StartsWith(Lower(h), "www.") {
      assert StartsWith(Lower(h), c + ".");
      DotlessPrefixUnique(c, "www", Lower(h));
    }
  }

  /** The same for `c.m.…`. */
  lemma MobileCodedHostNotWwwHost(c: string, x: string)
    requires CodeShaped(c) && c != "www"
    ensures WwwFamily(c + ".m." + x).None?
  {
    assert c + ".m." + x == c + "." + ("m." + x);
    CodedHostNotWwwHost(c, "m." + x);
  }

  /** A host that does not start with `w` holds no family at its start and is not a `www` host. */
  lemma NotFamilyText(h: string)
    requires |h| > 0 && LowerChar(h[0]) != 'w'
    ensures FamilyAt(h).None? && WwwFamily(h).None?
  {
    var l := Lower(h);
    assert l[0] != 'w';
    FamiliesNotW(l);
    assert !StartsWith(l, "www.");
  }

  /** No family is at the start of a text that does not begin with `w`. */
  lemma FamiliesNotW(s: string)
    requires |s| > 0 && s[0] != 'w'
    ensures FirstFamily(Families, ".org", s).None?
  {
    FamiliesInitial();
    FirstFamilyNotW(Families, ".org", s);
  }

  /** Every family name begins with `w`. */
  lemma FamiliesInitial()
    ensures forall g :: g in Families ==> |g| > 0 && g[0] == 'w'
  {
    FamiliesShape();
  }

  /** Names that all begin with `w` begin no text that does not. */
  lemma FirstFamilyNotW(fs: seq<string>, suffix: string, s: string)
    requires forall g :: g in fs ==> |g| > 0 && g[0] == 'w'
    requires |s| > 0 && s[0] != 'w'
    ensures FirstFamily(fs, suffix, s).None?
  {
  }

  /** The region pattern on `c.<f>.org…`: code `c`, no `m`, family `f`. */
  lemma RegionExecDesktop(c: string, f: string, t: string)
    requires IsRegion(c) && f in Families
    ensures RegionExec(c + "." + f + ".org" + t) == Some(HostMatch(Some(c), None, f))
  {
    var x := f + ".org" + t;
    assert c + "." + f + ".org" + t == c + "." + x;
    FamilyAtOf(f, t);
    FamilyTextStart(f, t);
    TryCodeDesktopAt(c, x, f);
    RegionExecCode(c, x);
  }

  /** The region pattern on `c.m.<f>.org…`: code `c`, the `m`, family `f`. */
  lemma RegionExecMobile(c: string, f: string, t: string)
    requires IsRegion(c) && f in Families
    ensures RegionExec(c + ".m." + f + ".org" + t) == Some(HostMatch(Some(c), Some("m"), f))
  {
    var x := f + ".org" + t;
    FamilyAtOf(f, t);
    TryCodeMobileAt(c, x, f);
    MobileHostRegroup(c, f, t);
    RegionExecCode(c, "m." + x);
  }

  /** When a region code is followed by a dot and the code pattern accepts the host, the region pattern is that of the code. */
  lemma RegionExecCode(c: string, y: string)
    requires IsRegion(c) && TryCode(c, c + "." + y).Some?
    ensures RegionExec(c + "." + y) == TryCode(c, c + "." + y)
  {
    RegionShape(c);
    CodeLowerCase(c);
    RegionsDotless();
    MatchWithCodesAt(Regions, c, y);
  }

  /** `c.m.<f>.org…` read as the code, `.m.` and the rest, and as the code, a dot and the rest. */
  lemma MobileHostRegroup(c: string, f: string, t: string)
    ensures c + ".m." + f + ".org" + t == c + ".m." + (f + ".org" + t)
    ensures c + ".m." + (f + ".org" + t) == c + "." + ("m." + (f + ".org" + t))
  {
    var x := f + ".org" + t;
    assert c + ".m." + f + ".org" + t == c + ".m." + x;
    assert ".m." == "." + "m.";
    assert c + ".m." + x == c + "." + ("m." + x);
  }

  /** The region pattern on a bare `<f>.org…`: the family alone. */
  lemma RegionExecFamily(f: string, t: string)
    requires f in Families
    ensures RegionExec(f + ".org" + t) == Some(HostMatch(None, None, f))
  {
    FamilyLabel(f);
    LabelPlain(f);
    LowerOfLowerCased(f);
    WiNotRegion(f);
    RegionsDotless();
    assert f + ".org" + t == f + "." + ("org" + t);
    MatchWithCodesAt(Regions, f, "org" + t);
    FamilyAtOf(f, t);
  }

  /** The region pattern finds nothing on a host whose first label is neither a code nor starts with `w`. */
  lemma RegionExecNone(a: string, y: string)
    requires '.' !in a && |a| > 0 && LowerChar(a[0]) != 'w' && !IsRegion(Lower(a))
    ensures RegionExec(a + "." + y).None? && WwwFamily(a + "." + y).None?
  {
    RegionsDotless();
    MatchWithCodesAt(Regions, a, y);
    NotFamilyText(a + "." + y);
  }

  /** The front host of a family: its label glued to the domain, already lower case. */
  lemma GluedHost(f: string)
    requires f in Families
    ensures Lower(f + Domain) == f + Domain
  {
    FamilyLabel(f);
    LabelPlain(f);
    assert LowerCased(Domain);
    LowerCasedJoin(f, Domain);
    LowerOfLowerCased(f + Domain);
  }

  /** `www.<f>.org` goes to `<f>.` and the domain, with `/www` put in front of the path. */
  lemma ProxiedOfWwwHost(u: Url, f: string, t: string)
    requires f in Families && u.host == "www." + f + ".org" + t
    ensures ProxiedTarget(u) == u.(host := Lower(f + "." + Domain + t), path := "/www" + u.path)
  {
    WwwFamilyOf(f, t);
    assert u.host[4..4 + |f|] == f && u.host[8 + |f|..] == t;
  }

  /** A matched region host: the family glued to the domain, the captures in front of the path. */
  lemma ProxiedTargetCoded(u: Url, m: HostMatch)
    requires WwwFamily(u.host).None? && RegionExec(u.host) == Some(m) && m.code.Some?
    ensures ProxiedTarget(u) == u.(host := Lower(m.family + Domain),
      path := Helpers.SetPathname(StripTrailingSlashes("/" + Interpolated(m.code) + "/" + Interpolated(m.mobile)) + u.path))
  {
  }

  /** A prefix `/<c>/<x>` ending in a letter loses nothing to the slash stripping. */
  lemma CodePrefix(c: string, x: string, p: string)
    requires |x| > 0 && x[|x| - 1] != '/'
    ensures Helpers.SetPathname(StripTrailingSlashes("/" + c + "/" + x) + p) == "/" + c + "/" + x + p
  {
    var prefix := "/" + c + "/" + x;
    assert prefix[|prefix| - 1] == x[|x| - 1];
    assert StripTrailingSlashes(prefix) == prefix;
  }

  /** The path prefix for a region code `c` and a mobile group `o` whose interpolation, after a slash, is `seg`. */
  lemma CodedPath(c: string, o: Option<string>, seg: string, p: string)
    requires seg == "/" + Interpolated(o) && Interpolated(o) != "" && seg[|seg| - 1] != '/'
    ensures Helpers.SetPathname(StripTrailingSlashes("/" + Interpolated(Some(c)) + "/" + Interpolated(o)) + p) == "/" + c + seg + p
  {
    var x := Interpolated(o);
    CodePrefix(c, x, p);
    assert "/" + c + "/" + x == "/" + c + seg;
  }

  /** `<c>.<f>.org` goes to the family glued to the domain, the path under `/<c>/undefined`. */
  lemma ProxiedOfRegionHost(u: Url, c: string, f: string, t: string)
    requires IsRegion(c) && f in Families && u.host == c + "." + f + ".org" + t
    ensures ProxiedTarget(u) == u.(host := f + Domain, path := "/" + c + "/undefined" + u.path)
  {
    RegionFamilyHost(c, f, t);
    ProxiedTargetCoded(u, HostMatch(Some(c), None, f));
    GluedHost(f);
    DesktopPath(c, u.path);
  }

  /** With no mobile group the path goes under `/<c>/undefined`. */
  lemma DesktopPath(c: string, p: string)
    ensures Helpers.SetPathname(StripTrailingSlashes("/" + Interpolated(Some(c)) + "/" + Interpolated(None)) + p) == "/" + c + "/undefined" + p
  {
    assert "/" + Interpolated(None) == "/undefined";
    CodedPath(c, None, "/undefined", p);
  }

  /** `<c>.<f>.org` is not a `www.` host, and the region pattern reads code `c` and family `f` from it. */
  lemma RegionFamilyHost(c: string, f: string, t: string)
    requires IsRegion(c) && f in Families
    ensures WwwFamily(c + "." + f + ".org" + t).None?
    ensures RegionExec(c + "." + f + ".org" + t) == Some(HostMatch(Some(c), None, f))
  {
    RegionHostNotWwwHost(c, f + ".org" + t);
    assert c + "." + f + ".org" + t == c + "." + (f + ".org" + t);
    RegionExecDesktop(c, f, t);
  }

  /** `<c>.m.<f>.org` is not a `www.` host, and the region pattern reads code `c`, group `m` and family `f` from it. */
  lemma MobileRegionFamilyHost(c: string, f: string, t: string)
    requires IsRegion(c) && f in Families
    ensures WwwFamily(c + ".m." + f + ".org" + t).None?
    ensures RegionExec(c + ".m." + f + ".org" + t) == Some(HostMatch(Some(c), Some("m"), f))
  {
    MobileRegionHostNotWwwHost(c, f + ".org" + t);
    assert c + ".m." + f + ".org" + t == c + ".m." + (f + ".org" + t);
    RegionExecMobile(c, f, t);
  }

  /** `<c>.m.<f>.org` goes to the family glued to the domain, the path under `/<c>/m`. */
  lemma ProxiedOfMobileRegionHost(u: Url, c: string, f: string, t: string)
    requires IsRegion(c) && f in Families && u.host == c + ".m." + f + ".org" + t
    ensures ProxiedTarget(u) == u.(host := f + Domain, path := "/" + c + "/m" + u.path)
  {
    MobileRegionFamilyHost(c, f, t);
    ProxiedTargetCoded(u, HostMatch(Some(c), Some("m"), f));
    GluedHost(f);
    CodedPath(c, Some("m"), "/m", u.path);
  }

  /** A bare `<f>.org` host changes to the family glued to the domain, and nothing else changes. */
  lemma ProxiedOfFamilyHost(u: Url, f: string, t: string)
    requires f in Families && u.host == f + ".org" + t
    ensures ProxiedTarget(u) == u.(host := f + Domain)
  {
    FamilyLabel(f);
    assert LowerChar(u.host[0]) == 'w' && LowerChar(u.host[1]) == 'i';
    assert Lower(u.host)[1] == 'i';
    assert !StartsWith(Lower(u.host), "www.");
    RegionExecFamily(f, t);
    GluedHost(f);
  }

  /** A host whose first label is neither a region code nor starts with `w` is returned as it came. */
  lemma ProxiedOfUncodedLabel(u: Url, a: string, y: string)
    requires '.' !in a && |a| > 0 && LowerChar(a[0]) != 'w' && !IsRegion(Lower(a))
    requires u.host == a + "." + y
    ensures ProxiedTarget(u) == u
  {
    RegionExecNone(a, y);
  }

  /**
   * What the two host patterns of `upstreamUrl2Url` look for at the start of
   * the lower-case host `l`, for the family `f`: `www.<f>.org`, `<f>.org`,
   * `<region>.<f>.org` or `<region>.m.<f>.org`.
   */
  predicate FamilyHostAt(l: string, f: string) {
    StartsWith(l, "www." + f + ".org") || StartsWith(l, f + ".org")
    || exists c :: c in Regions && (StartsWith(l, c + "." + f + ".org") || StartsWith(l, c + ".m." + f + ".org"))
  }

  /** Some family's host shape begins the host, compared in lower case. */
  predicate HostPatternsMatch(h: string) {
    exists f :: f in Families && FamilyHostAt(Lower(h), f)
  }

  /** A `www.<family>.org` test that succeeds has found that shape. */
  lemma WwwFamilyShape(h: string)
    ensures WwwFamily(h).Some? ==> HostPatternsMatch(h)
  {
    if WwwFamily(h).Some? {
      var f := WwwFamily(h).value;
      LowerThen(h, "www.", f + ".org");
      assert "www." + f + ".org" == "www." + (f + ".org");
      assert FamilyHostAt(Lower(h), f);
    }
  }

  /** `<code><sep><family>.org`, read in lower case, splits after the code and after the separator. */
  lemma CodeSepThen(h: string, c: string, sep: string, f: string)
    requires |c| + |sep| <= |h|
    ensures StartsWith(Lower(h), c + sep + f + ".org") <==>
      StartsWith(Lower(h), c) && StartsWith(Lower(h[|c|..]), sep) && StartsWith(Lower(h[|c|..][|sep|..]), f + ".org")
  {
    assert c + sep + f + ".org" == c + (sep + (f + ".org"));
    LowerThen(h, c, sep + (f + ".org"));
    LowerThen(h[|c|..], sep, f + ".org");
  }

  /** The family a code's pattern finds after the code, and the separator (`.` or `.m.`) before it. */
  lemma TryCodeFamily(c: string, h: string) returns (sep: string, f: string)
    requires |c| <= |h|
    ensures TryCode(c, h).Some? ==>
      f in Families && (sep == "." || sep == ".m.") && |c| + |sep| <= |h|
      && StartsWith(Lower(h[|c|..]), sep) && StartsWith(Lower(h[|c|..][|sep|..]), f + ".org")
  {
    var after := h[|c|..];
    if StartsWith(Lower(after), ".m.") && FamilyAt(after[3..]).Some? {
      sep, f := ".m.", FirstFamily(Families, ".org", Lower(after[3..])).value;
    } else if StartsWith(Lower(after), ".") && FamilyAt(after[1..]).Some? {
      sep, f := ".", FirstFamily(Families, ".org", Lower(after[1..])).value;
    } else {
      sep, f := "", "";
    }
  }

  /** The region-code shapes of `FamilyHostAt`. */
  lemma CodeShapeAt(l: string, c: string, sep: string, f: string)
    requires c in Regions && (sep == "." || sep == ".m.") && StartsWith(l, c + sep + f + ".org")
    ensures FamilyHostAt(l, f)
  {
  }

  /** The pattern with a region code that succeeds has found `<code>.<family>.org` or `<code>.m.<family>.org`. */
  lemma TryCodeShape(c: string, h: string)
    requires c in Regions && StartsWith(Lower(h), c)
    ensures TryCode(c, h).Some? ==> HostPatternsMatch(h)
  {
    var sep, f := TryCodeFamily(c, h);
    if TryCode(c, h).Some? {
      CodeSepThen(h, c, sep, f);
      CodeShapeAt(Lower(h), c, sep, f);
    }
  }

  /** Whatever code of `codes` the alternation settles on, the host has that code's shape. */
  lemma {:induction false} MatchWithCodesShape(codes: seq<string>, h: string)
    requires forall c :: c in codes ==> c in Regions
    ensures MatchWithCodes(codes, h).Some? ==> HostPatternsMatch(h)
  {
    if |codes| > 0 {
      if StartsWith(Lower(h), codes[0]) && TryCode(codes[0], h).Some? {
        TryCodeShape(codes[0], h);
      } else {
        MatchWithCodesShape(codes[1..], h);
      }
    }
  }

  /** A region pattern that succeeds has found one of the shapes. */
  lemma RegionExecShape(h: string)
    ensures RegionExec(h).Some? ==> HostPatternsMatch(h)
  {
    MatchWithCodesShape(Regions, h);
    if MatchWithCodes(Regions, h).None? && FamilyAt(h).Some? {
      var f := FirstFamily(Families, ".org", Lower(h)).value;
      assert FamilyHostAt(Lower(h), f);
    }
  }

  /** A text that starts, in lower case, with a family and `.org` has a family found at its start. */
  lemma FamilyAtFinds(x: string, f: string)
    requires f in Families && StartsWith(Lower(x), f + ".org")
    ensures FamilyAt(x).Some?
  {
  }

  /** A region code followed by one of the family shapes is taken by that code's pattern. */
  lemma TryCodeFinds(c: string, h: string, sep: string, f: string)
    requires f in Families && (sep == "." || sep == ".m.") && |c| + |sep| <= |h|
    requires StartsWith(Lower(h[|c|..]), sep) && StartsWith(Lower(h[|c|..][|sep|..]), f + ".org")
    ensures TryCode(c, h).Some?
  {
    var after := h[|c|..];
    FamilyAtFinds(after[|sep|..], f);
    if sep == "." && StartsWith(Lower(after), ".m.") {
      LowerThen(after, ".m.", "");
    }
  }

  /** When some code of `codes` takes the host, the alternation takes it (perhaps with an earlier code). */
  lemma {:induction false} MatchWithCodesFinds(codes: seq<string>, c: string, h: string)
    requires c in codes && StartsWith(Lower(h), c) && TryCode(c, h).Some?
    ensures MatchWithCodes(codes, h).Some?
  {
    if codes[0] != c {
      MatchWithCodesFinds(codes[1..], c, h);
    }
  }

  /** The region code and separator of a region-code shape. */
  lemma CodeShapeParts(l: string, f: string) returns (c: string, sep: string)
    requires FamilyHostAt(l, f) && !StartsWith(l, "www." + f + ".org") && !StartsWith(l, f + ".org")
    ensures c in Regions && (sep == "." || sep == ".m.") && StartsWith(l, c + sep + f + ".org")
  {
    c :| c in Regions && (StartsWith(l, c + "." + f + ".org") || StartsWith(l, c + ".m." + f + ".org"));
    sep := if StartsWith(l, c + "." + f + ".org") then "." else ".m.";
  }

  /** Every one of the shapes is found by the `www.` test or by the region pattern. */
  lemma PatternsFindShape(h: string)
    ensures HostPatternsMatch(h) ==> WwwFamily(h).Some? || RegionExec(h).Some?
  {
    if HostPatternsMatch(h) {
      var l := Lower(h);
      var f :| f in Families && FamilyHostAt(l, f);
      if StartsWith(l, "www." + f + ".org") {
        assert "www." + f + ".org" == "www." + (f + ".org");
        LowerThen(h, "www.", f + ".org");
      } else if StartsWith(l, f + ".org") {
        FamilyAtFinds(h, f);
      } else {
        var c, sep := CodeShapeParts(l, f);
        CodeSepThen(h, c, sep, f);
        TryCodeFinds(c, h, sep, f);
        MatchWithCodesFinds(Regions, c, h);
      }
    }
  }

  /** `upstreamUrl2Url` rewrites a host exactly when one of the family shapes begins it. */
  lemma HostPatternsExact(h: string)
    ensures WwwFamily(h).Some? || RegionExec(h).Some? <==> HostPatternsMatch(h)
  {
    WwwFamilyShape(h);
    RegionExecShape(h);
    PatternsFindShape(h);
  }

  /** A host that none of the family shapes begins, such as `en.google.com` or `www.google.com`, is returned as it came. */
  lemma ProxiedOfUnmatched(u: Url)
    requires !HostPatternsMatch(u.host)
    ensures ProxiedTarget(u) == u
  {
    HostPatternsExact(u.host);
  }

  /** The media host `upload.wikimedia.org` is left alone. */
  lemma UploadHostKept(u: Url)
    requires u.host == "upload.wikimedia.org"
    ensures ProxiedTarget(u) == u
  {
    UploadLabel();
    ProxiedOfUncodedLabel(u, "upload", "wikimedia.org");
  }

  /** `upload.wikimedia.org` is the label `upload`, which is no region code whatever its case, and the rest. */
  lemma UploadLabel()
    ensures "upload.wikimedia.org" == "upload" + "." + "wikimedia.org"
    ensures !IsRegion(Lower("upload"))
  {
    UploadNotRegion();
    assert Lower("upload") == "upload";
  }

  // ------------------------------------------------------- the two mappings together

  /** A host text in lower case with no URL delimiter and no `@` in it. */
  predicate PlainHost(h: string) {
    LowerCased(h) && HostText(h)
  }

  /** Two plain host texts joined are plain. */
  lemma PlainJoin(a: string, b: string)
    requires PlainHost(a) && PlainHost(b)
    ensures PlainHost(a + b)
  {
    assert forall k :: 0 <= k < |a + b| ==> (a + b)[k] == if k < |a| then a[k] else b[k - |a|];
  }

  /** A region code and a family are plain host texts. */
  lemma CodeAndFamilyPlain(c: string, f: string)
    requires IsRegion(c) && f in Families
    ensures PlainHost(c) && PlainHost(f)
  {
    RegionShape(c);
    FamilyLabel(f);
    LabelPlain(f);
  }

  /** Parsing a plain host and a path gives them back, with no query. */
  lemma ReparsePlainHost(scheme: string, host: string, p: string)
    requires PlainHost(host)
    requires |p| == 0 || p[0] == '/'
    requires forall k :: 0 <= k < |p| ==> p[k] !in PathStops
    ensures Reparse(scheme, host + p) == Url(scheme, host, Helpers.SetPathname(p), "")
  {
    ReparseHostPath(scheme, host, p);
    LowerOfLowerCased(host);
  }

  /** `c.<f>.org` is a plain host. */
  lemma RegionHostPlain(c: string, f: string)
    requires IsRegion(c) && f in Families
    ensures PlainHost(c + "." + f + ".org")
  {
    CodeAndFamilyPlain(c, f);
    assert PlainHost(".") && PlainHost(".org");
    PlainJoin(c, ".");
    PlainJoin(c + ".", f);
    PlainJoin(c + "." + f, ".org");
  }

  /** `c.m.<f>.org` is a plain host. */
  lemma MobileRegionHostPlain(c: string, f: string)
    requires IsRegion(c) && f in Families
    ensures PlainHost(c + ".m." + f + ".org")
  {
    CodeAndFamilyPlain(c, f);
    assert PlainHost(".m.") && PlainHost(".org");
    PlainJoin(c, ".m.");
    PlainJoin(c + ".m.", f);
    PlainJoin(c + ".m." + f, ".org");
  }

  /**
   * Round trip of the `www` form: a family front host with a path `/www/…` goes
   * upstream and comes back as it was, except for the query and fragment, which
   * the upstream mapping drops.
   */
  lemma WwwRoundTrip(u: Url, f: string, p: string)
    requires f in Families && u.host == f + "." + Domain
    requires u.path == "/www" + p && |p| > 0 && p[0] == '/'
    requires forall k :: 0 <= k < |p| ==> p[k] !in PathStops
    ensures UpstreamTarget(u) == Url(u.scheme, "www." + f + ".org", p, "")
    ensures ProxiedTarget(UpstreamTarget(u)) == u.(rest := "")
  {
    UpstreamOfWwwPath(u, f, p);
    var v := UpstreamTarget(u);
    assert v.host == "www." + f + ".org" + "";
    ProxiedOfWwwHost(v, f, "");
    FamilyLabel(f);
    FrontHostLowerCased(f);
    LowerOfLowerCased(f + "." + Domain);
    assert f + "." + Domain + "" == u.host;
  }

  /**
   * The region form does not survive the round trip: `/c/…` on a family front
   * host comes back on the family glued to the domain, with `/c/undefined` in
   * front of the rest of the path.
   */
  lemma RegionRoundTrip(u: Url, f: string, c: string, rest: string)
    requires IsRegion(c) && f in Families && u.host == f + "." + Domain
    requires u.path == "/" + c + rest && PathRegion(u.path) == Some(c)
    requires |rest| > 0 && rest[0] == '/' && !StartsWithIgnoringCase(rest, "/m")
    requires forall k :: 0 <= k < |rest| ==> rest[k] !in PathStops
    ensures UpstreamTarget(u) == Url(u.scheme, c + "." + f + ".org", rest, "")
    ensures ProxiedTarget(UpstreamTarget(u)) == u.(host := f + Domain, path := "/" + c + "/undefined" + rest, rest := "")
  {
    UpstreamOfRegionPath(u, f, c, rest);
    RegionHostPlain(c, f);
    ReparsePlainHost(u.scheme, c + "." + f + ".org", rest);
    ProxiedOfBareRegionHost(UpstreamTarget(u), c, f);
  }

  /** `ProxiedOfRegionHost` on the host `<c>.<f>.org` with nothing after it. */
  lemma ProxiedOfBareRegionHost(v: Url, c: string, f: string)
    requires IsRegion(c) && f in Families && v.host == c + "." + f + ".org"
    ensures ProxiedTarget(v) == v.(host := f + Domain, path := "/" + c + "/undefined" + v.path)
  {
    assert v.host == c + "." + f + ".org" + "";
    ProxiedOfRegionHost(v, c, f, "");
  }

  /**
   * The mobile region form comes back with its path intact, but on the family
   * glued to the domain rather than on the front host it came from.
   */
  lemma MobileRegionRoundTrip(u: Url, f: string, c: string, rest: string)
    requires IsRegion(c) && f in Families && u.host == f + "." + Domain
    requires u.path == "/" + c + "/m" + rest && PathRegion(u.path) == Some(c)
    requires |rest| > 0 && rest[0] == '/'
    requires forall k :: 0 <= k < |rest| ==> rest[k] !in PathStops
    ensures UpstreamTarget(u) == Url(u.scheme, c + ".m." + f + ".org", rest, "")
    ensures ProxiedTarget(UpstreamTarget(u)) == u.(host := f + Domain, rest := "")
  {
    UpstreamOfPlainMobileRegionPath(u, f, c, rest);
    ProxiedOfBareMobileRegionHost(UpstreamTarget(u), c, f);
  }

  /** `ProxiedOfMobileRegionHost` on the host `<c>.m.<f>.org` with nothing after it. */
  lemma ProxiedOfBareMobileRegionHost(v: Url, c: string, f: string)
    requires IsRegion(c) && f in Families && v.host == c + ".m." + f + ".org"
    ensures ProxiedTarget(v) == v.(host := f + Domain, path := "/" + c + "/m" + v.path)
  {
    assert v.host == c + ".m." + f + ".org" + "";
    ProxiedOfMobileRegionHost(v, c, f, "");
  }

  /** With no `/www` and no region code at the front of the path, only the host changes. */
  lemma UpstreamOfPlainPath(u: Url, f: string)
    requires f in Families && u.host == f + "." + Domain
    requires !StartsWithIgnoringCase(u.path, "/www") && PathRegion(u.path).None?
    ensures UpstreamTarget(u) == u.(host := f + ".org")
  {
    UpstreamHostOfFrontHost(f);
    FamilyLabel(f);
    FrontHostLowerCased(f);
    LowerOfLowerCased(f + ".org");
  }

  /** On the `wikipedia` front host, `/w/api.php` is neither redirected (by host or by path) nor given a region: it reaches the family's `.org` host with its query. */
  lemma ApiPathPassesThrough(u: Url)
    requires u.host == "wikipedia" + "." + Domain && u.path == "/w/api.php"
    ensures !RedirectsHost(u.host) && !RedirectsPath(u.path)
    ensures UpstreamTarget(u) == u.(host := "wikipedia" + ".org")
  {
    assert u.host == "wikipedia" + "." + Domain + "";
    FamilyHostNotRedirected("wikipedia", "");
    ApiPathPlain();
    UpstreamOfPlainPath(u, "wikipedia");
  }

  /** `/w/api.php` is exempt from the redirect, names no region and does not begin with `/www`. */
  lemma ApiPathPlain()
    ensures !RedirectsPath("/w/api.php")
    ensures !StartsWithIgnoringCase("/w/api.php", "/www") && PathRegion("/w/api.php").None?
  {
    var p := "/w/api.php";
    var s := Lower(p[1..]);
    assert s == "w/api.php";
    assert Helpers.WildcardAt(s, "w/api.php", 0);
    WBeginsNoRegion(s);
    assert Lower(p)[..4] == "/w/a";
  }

  /** The codes of the examples in the comments are region codes. */
  lemma ExampleCodes()
    ensures IsRegion("en") && IsRegion("zh")
  {
    EnFirst("en");
    ZhFirst("zh");
  }

  /** A path that begins `/en` has region `en`. */
  lemma EnPathRegion(path: string, rest: string)
    requires path == "/en" + rest
    ensures PathRegion(path) == Some("en")
  {
    LowerPrefix(path[1..], 2);
    EnFirst(Lower(path[1..]));
  }

  /** A path that begins `/zh` has region `zh`, whatever follows. */
  lemma ZhPathRegion(path: string, rest: string)
    requires path == "/zh" + rest
    ensures PathRegion(path) == Some("zh")
  {
    LowerPrefix(path[1..], 2);
    ZhFirst(Lower(path[1..]));
  }

  /** A region path with a plain rest goes to the region host with that rest as its path. */
  lemma UpstreamOfPlainRegionPath(u: Url, f: string, c: string, rest: string)
    requires IsRegion(c) && f in Families && u.host == f + "." + Domain
    requires u.path == "/" + c + rest && PathRegion(u.path) == Some(c)
    requires |rest| > 0 && rest[0] == '/' && !StartsWithIgnoringCase(rest, "/m")
    requires forall k :: 0 <= k < |rest| ==> rest[k] !in PathStops
    ensures UpstreamTarget(u) == Url(u.scheme, c + "." + f + ".org", rest, "")
  {
    UpstreamOfRegionPath(u, f, c, rest);
    RegionHostPlain(c, f);
    ReparsePlainHost(u.scheme, c + "." + f + ".org", rest);
  }

  /** A mobile region path with a plain rest goes to the mobile region host with that rest as its path. */
  lemma UpstreamOfPlainMobileRegionPath(u: Url, f: string, c: string, rest: string)
    requires IsRegion(c) && f in Families && u.host == f + "." + Domain
    requires u.path == "/" + c + "/m" + rest && PathRegion(u.path) == Some(c)
    requires |rest| == 0 || rest[0] == '/'
    requires forall k :: 0 <= k < |rest| ==> rest[k] !in PathStops
    ensures UpstreamTarget(u) == Url(u.scheme, c + ".m." + f + ".org", Helpers.SetPathname(rest), "")
  {
    UpstreamOfMobileRegionPath(u, f, c, rest);
    MobileRegionHostPlain(c, f);
    ReparsePlainHost(u.scheme, c + ".m." + f + ".org", rest);
  }

  /** `https://wikipedia.example.com/en/wiki/Wikipedia` goes to `https://en.wikipedia.org/wiki/Wikipedia`. */
  lemma UpstreamExampleEn(u: Url, f: string, rest: string)
    requires f in Families && u.host == f + "." + Domain && u.path == "/" + "en" + rest
    requires |rest| > 0 && rest[0] == '/' && !StartsWithIgnoringCase(rest, "/m")
    requires forall k :: 0 <= k < |rest| ==> rest[k] !in PathStops
    ensures UpstreamTarget(u) == Url(u.scheme, "en" + "." + f + ".org", rest, "")
  {
    EnPathRegion(u.path, rest);
    ExampleCodes();
    UpstreamOfPlainRegionPath(u, f, "en", rest);
  }

  /** `https://wikipedia.example.com/zh/m/wiki/Wikipedia` goes to `https://zh.m.wikipedia.org/wiki/Wikipedia`. */
  lemma UpstreamExampleZhMobile(u: Url, f: string, rest: string)
    requires f in Families && u.host == f + "." + Domain && u.path == "/" + "zh" + "/m" + rest
    requires |rest| > 0 && rest[0] == '/'
    requires forall k :: 0 <= k < |rest| ==> rest[k] !in PathStops
    ensures UpstreamTarget(u) == Url(u.scheme, "zh" + ".m." + f + ".org", rest, "")
  {
    ZhPathRegion(u.path, "/m" + rest);
    ExampleCodes();
    UpstreamOfPlainMobileRegionPath(u, f, "zh", rest);
  }

  /** `https://en.wikipedia.org/wiki/Wikipedia` comes back on the glued host, under `/en/undefined`. */
  lemma ProxiedExampleEn(u: Url, f: string)
    requires f in Families && u.host == "en" + "." + f + ".org" + ""
    ensures ProxiedTarget(u) == u.(host := f + Domain, path := "/" + "en" + "/undefined" + u.path)
  {
    ExampleCodes();
    ProxiedOfRegionHost(u, "en", f, "");
  }

  /** `https://zh.m.wikipedia.org/wiki/Wikipedia` comes back on the glued host, under `/zh/m`. */
  lemma ProxiedExampleZhMobile(u: Url, f: string)
    requires f in Families && u.host == "zh" + ".m." + f + ".org" + ""
    ensures ProxiedTarget(u) == u.(host := f + Domain, path := "/" + "zh" + "/m" + u.path)
  {
    ExampleCodes();
    ProxiedOfMobileRegionHost(u, "zh", f, "");
  }

  /** `/zh-yue/…` is taken as region `zh`: the `-yue` stays glued to the end of the upstream host. */
  lemma ZhYueTakenAsZh(u: Url, f: string, p: string)
    requires f in Families && u.host == f + "." + Domain && u.path == "/" + "zh" + ("-yue" + p)
    requires |p| > 0 && p[0] == '/' && forall k :: 0 <= k < |p| ==> p[k] !in PathStops
    ensures UpstreamTarget(u) == Url(u.scheme, "zh" + "." + f + ".org" + "-yue", p, "")
  {
    ZhPathRegion(u.path, "-yue" + p);
    ExampleCodes();
    YueLabel();
    UpstreamOfGluedRegionPath(u, f, "zh", "-yue", p);
  }

  lemma YueLabel()
    ensures GlueText("-yue") && "-yue"[0] == '-'
  {
  }

  /**
   * Text that can follow a host and stay a host name when it is parsed again:
   * lower-case letters and hyphens, as in a region code. It holds no `@`, which
   * would start the host anew, no `:`, which would start a port, no `%`, which
   * would be decoded, and no dot or digit, which could end the host in a number.
   */
  predicate GlueText(x: string) {
    forall k :: 0 <= k < |x| ==> CodeChar(x[k])
  }

  /** Glue text is a plain host text. */
  lemma GluePlain(x: string)
    requires GlueText(x)
    ensures PlainHost(x)
  {
  }

  /**
   * A region code followed by letters or hyphens rather than a `/`: the text is
   * glued to the end of the upstream host, and what follows it is the path.
   */
  lemma UpstreamOfGluedRegionPath(u: Url, f: string, c: string, x: string, p: string)
    requires IsRegion(c) && f in Families && u.host == f + "." + Domain
    requires u.path == "/" + c + (x + p) && PathRegion(u.path) == Some(c)
    requires GlueText(x) && |x| > 0 && x[0] != '/'
    requires |p| == 0 || p[0] == '/'
    requires forall k :: 0 <= k < |p| ==> p[k] !in PathStops
    ensures UpstreamTarget(u) == Url(u.scheme, c + "." + f + ".org" + x, Helpers.SetPathname(p), "")
  {
    assert Lower(x + p)[0] == LowerChar(x[0]) != '/';
    UpstreamOfRegionPath(u, f, c, x + p);
    RegionHostPlain(c, f);
    GluedSuffix(u.scheme, c + "." + f + ".org", x, p);
  }

  /** Parsing a plain host with glue text after it keeps the text in the host. */
  lemma GluedSuffix(scheme: string, host: string, x: string, p: string)
    requires PlainHost(host) && GlueText(x)
    requires |p| == 0 || p[0] == '/'
    requires forall k :: 0 <= k < |p| ==> p[k] !in PathStops
    ensures Reparse(scheme, host + (x + p)) == Url(scheme, host + x, Helpers.SetPathname(p), "")
  {
    GluePlain(x);
    PlainJoin(host, x);
    assert host + (x + p) == host + x + p;
    ReparsePlainHost(scheme, host + x, p);
  }

  /**
   * `/en/mars`, and any `/en/m` followed by letters or hyphens, is taken as the
   * mobile form of `en`: the letters are glued to the upstream host and the path is `/`.
   */
  lemma MarsTakenAsMobile(u: Url, f: string, t: string)
    requires f in Families && u.host == f + "." + Domain && u.path == "/" + "en" + "/m" + t
    requires GlueText(t)
    ensures UpstreamTarget(u) == Url(u.scheme, "en" + ".m." + f + ".org" + t, "/", "")
  {
    EnPathRegion(u.path, "/m" + t);
    ExampleCodes();
    UpstreamOfMobileRegionPath(u, f, "en", t);
    MobileRegionHostPlain("en", f);
    GluedSuffix(u.scheme, "en" + ".m." + f + ".org", t, "");
    assert t + "" == t;
  }

  /**
   * `/en/m@<h>` is exempt from the redirect on a family front host, and the
   * href setter then reads the mobile region host as a username: the upstream
   * URL is the root of `h`, whatever host `h` names.
   */
  lemma AtHandsOverHost(u: Url, f: string, h: string)
    requires f in Families && u.host == f + "." + Domain && u.path == "/" + "en" + "/m" + ("@" + h)
    requires PlainHost(h)
    ensures !RedirectsPath(u.path) && !RedirectsHost(u.host)
    ensures UpstreamTarget(u) == Url(u.scheme, h, "/", "")
  {
    AtPathNotRedirected(u.path, h);
    assert u.host == f + "." + Domain + "";
    FamilyHostNotRedirected(f, "");
    EnPathRegion(u.path, "/m" + ("@" + h));
    ExampleCodes();
    UpstreamOfMobileRegionPath(u, f, "en", "@" + h);
    MobileRegionHostPlain("en", f);
    CredentialsDropped(u.scheme, "en" + ".m." + f + ".org", h);
  }

  lemma AtPathNotRedirected(path: string, h: string)
    requires path == "/" + "en" + "/m" + ("@" + h)
    ensures !RedirectsPath(path)
  {
    ExampleCodes();
    assert path == "/" + "en" + ("/m" + ("@" + h));
    RegionPathNotRedirected("en", "/m" + ("@" + h));
  }

  /** Parsing `a@h`, with a plain host `h` and no delimiter in `a`, gives the root of `h`. */
  lemma CredentialsDropped(scheme: string, a: string, h: string)
    requires forall k :: 0 <= k < |a| ==> a[k] !in HostStops
    requires PlainHost(h)
    ensures Reparse(scheme, a + ("@" + h)) == Url(scheme, h, "/", "")
  {
    var t := a + ("@" + h);
    assert forall k :: 0 <= k < |t| ==> t[k] !in HostStops;
    UntilAppend(t, [], HostStops);
    assert t + [] == t;
    CredentialsBeforeAt(a, h);
    LowerOfLowerCased(h);
  }

  /** Whatever precedes the last `@` is taken for credentials. */
  lemma {:induction false} CredentialsBeforeAt(a: string, h: string)
    requires forall k :: 0 <= k < |h| ==> h[k] != '@'
    ensures AfterCredentials(a + ("@" + h)) == h
  {
    var t := a + ("@" + h);
    if |h| > 0 {
      var g := h[..|h| - 1];
      assert t[..|t| - 1] == a + ("@" + g);
      CredentialsBeforeAt(a, g);
      assert h == g + [h[|h| - 1]];
    }
  }

  /**
   * For `https://wikipedia.example.com/en/m@evil.com` the upstream URL is
   * `https://en.m.wikipedia.org@evil.com/`, whose host is `evil.com`: the
   * request is sent to the host `evil.com` (or rejected where `fetch` refuses a
   * URL with credentials), which is not `wikipedia.org` nor a subdomain of it.
   * The model's `Url` keeps no credentials, so its upstream URL reads `https://evil.com/`.
   */
  lemma EvilComFetched(u: Url)
    requires u.host == "wikipedia" + "." + Domain && u.path == "/" + "en" + "/m" + ("@" + "evil.com")
    ensures UpstreamTarget(u) == Url(u.scheme, "evil.com", "/", "")
    ensures !OnHost("evil.com", Lower(UpstreamHost(u.host)))
  {
    assert PlainHost("evil.com");
    AtHandsOverHost(u, "wikipedia", "evil.com");
    WikipediaMapped(u.host);
  }

  /** The Wikipedia front host maps to `wikipedia.org`, of which `evil.com` is no subdomain. */
  lemma WikipediaMapped(h: string)
    requires h == "wikipedia" + "." + Domain
    ensures !OnHost("evil.com", Lower(UpstreamHost(h)))
  {
    UpstreamHostOfFrontHost("wikipedia");
    FrontHostLowerCased("wikipedia");
    LowerOfLowerCased("wikipedia" + ".org");
  }

  // ------------------------------------------ patterns closed by a segment end

  /** `t` ends the path or starts its next segment: the `(?=\/|$)` that closes the corrected patterns. */
  predicate SegmentEnd(t: string) {
    |t| == 0 || t[0] == '/'
  }

  /**
   * `^\/(codes)(\/(m))?(?=\/|$)` with the `i` flag, on the lower-cased text `s`
   * after the leading `/`: the first code in list order that is a whole
   * segment, with `true` when a whole `/m` segment follows it.
   */
  function SegmentRegion(codes: seq<string>, s: string): (r: Option<(string, bool)>)
    ensures r.Some? ==> r.value.0 in codes && StartsWith(s, r.value.0) && SegmentEnd(s[|r.value.0|..])
    ensures r.Some? && r.value.1 ==> StartsWith(s[|r.value.0|..], "/m") && SegmentEnd(s[|r.value.0| + 2..])
    ensures r.None? ==> forall c :: c in codes && StartsWith(s, c) ==> !SegmentEnd(s[|c|..])
  {
    if |codes| == 0 then None
    else if StartsWith(s, codes[0]) && SegmentEnd(s[|codes[0]|..]) then
      var t := s[|codes[0]|..];
      Some((codes[0], StartsWith(t, "/m") && SegmentEnd(t[2..])))
    else SegmentRegion(codes[1..], s)
  }

  /** `SegmentRegion` on the codes of the table and the path after its leading `/`. */
  function SegmentPathRegion(path: string): (r: Option<(string, bool)>)
    requires |path| > 0
    ensures r.Some? ==> CodeShaped(r.value.0) && StartsWith(Lower(path[1..]), r.value.0)
    ensures r.Some? ==> SegmentEnd(Lower(path[1..])[|r.value.0|..])
    ensures r.Some? && r.value.1 ==> StartsWith(Lower(path[1..])[|r.value.0|..], "/m")
    ensures r.Some? && r.value.1 ==> SegmentEnd(Lower(path[1..])[|r.value.0| + 2..])
  {
    SegmentRegion(Regions, Lower(path[1..]))
  }

  /**
   * `url2UpstreamUrl` with `^\/www` and the region pattern closed by
   * `(?=\/|$)`, so that `www`, a code and `m` count only as whole path
   * segments; nothing else changes.
   */
  function SegmentUpstreamTarget(u: Url): (r: Url)
    ensures r.scheme == u.scheme
  {
    SegmentTargetFrom(u, UpstreamHost(u.host))
  }

  /**
   * Where the closed patterns put the mapped host: the name that goes in front
   * of it (`www`, the region as written, or the region and `m`) and the path
   * that follows it, or nothing when only the host is mapped.
   */
  function SegmentSplit(u: Url): (r: Option<(string, string)>)
    ensures r.Some? ==> HostText(r.value.0) && SegmentEnd(r.value.1)
  {
    if StartsWithIgnoringCase(u.path, "/www") && SegmentEnd(u.path[4..]) then
      Some(("www", u.path[4..]))
    else if |u.path| == 0 || u.path[0] != '/' then None
    else match SegmentPathRegion(u.path)
      case None => None
      case Some((c, mobile)) =>
        if mobile then
          MobileSegmentParts(u.path, c);
          Some((u.path[1..1 + |c|] + ".m", u.path[3 + |c|..]))
        else
          DesktopSegmentParts(u.path, c);
          Some((u.path[1..1 + |c|], u.path[1 + |c|..]))
  }

  /** `SegmentUpstreamTarget` once the front host has been mapped to `upstreamHost`. */
  function SegmentTargetFrom(u: Url, upstreamHost: string): (r: Url)
    ensures r.scheme == u.scheme
  {
    match SegmentSplit(u)
    case None => u.(host := Lower(upstreamHost))
    case Some((sub, p)) => Reparse(u.scheme, sub + "." + upstreamHost + p)
  }

  /** `r` is the host `h` or one of its subdomains. */
  predicate OnHost(r: string, h: string) {
    r == h || (|r| > |h| && r[|r| - |h| - 1..] == "." + h)
  }

  /**
   * With the closed patterns every front URL is fetched from the host its
   * front host maps to, or from a subdomain of it, whatever its path holds.
   */
  lemma SegmentTargetStaysOnHost(u: Url)
    requires HostText(u.host)
    ensures OnHost(SegmentUpstreamTarget(u).host, Lower(UpstreamHost(u.host)))
  {
    UpstreamHostText(u.host);
    SegmentTargetFromStays(u, UpstreamHost(u.host));
  }

  /** `SegmentTargetStaysOnHost` for any mapped host that is host text. */
  lemma SegmentTargetFromStays(u: Url, upstreamHost: string)
    requires HostText(upstreamHost)
    ensures OnHost(SegmentTargetFrom(u, upstreamHost).host, Lower(upstreamHost))
  {
    match SegmentSplit(u)
    case None =>
    case Some((sub, p)) =>
      SubdomainHost(u.scheme, sub, upstreamHost, p);
  }

  /** A desktop region segment: the region as written is host text and a new segment follows it. */
  lemma DesktopSegmentParts(path: string, c: string)
    requires CodeShaped(c) && |path| > 0
    requires StartsWith(Lower(path[1..]), c) && SegmentEnd(Lower(path[1..])[|c|..])
    ensures 1 + |c| <= |path|
    ensures HostText(path[1..1 + |c|]) && SegmentEnd(path[1 + |c|..])
  {
    LowerPrefix(path[1..], |c|);
    assert path[1..][..|c|] == path[1..1 + |c|] && path[1..][|c|..] == path[1 + |c|..];
    UnLowered(path[1..1 + |c|]);
  }

  /** A mobile region segment: the region and `.m` are host text and a new segment follows `/m`. */
  lemma MobileSegmentParts(path: string, c: string)
    requires CodeShaped(c) && |path| > 0
    requires StartsWith(Lower(path[1..]), c) && StartsWith(Lower(path[1..])[|c|..], "/m")
    requires SegmentEnd(Lower(path[1..])[|c| + 2..])
    ensures 3 + |c| <= |path|
    ensures HostText(path[1..1 + |c|] + ".m") && SegmentEnd(path[3 + |c|..])
  {
    var region := path[1..1 + |c|];
    LowerPrefix(path[1..], |c|);
    assert path[1..][..|c|] == region;
    LowerPrefix(path[1..], |c| + 2);
    assert path[1..][|c| + 2..] == path[3 + |c|..];
    UnLowered(region);
    assert HostText(".m");
    HostTextJoin(region, ".m");
  }

  /** Text whose lower case is host text is host text. */
  lemma UnLowered(x: string)
    requires CodeShaped(Lower(x))
    ensures HostText(x)
  {
    assert forall k :: 0 <= k < |x| ==> CodeChar(LowerChar(x[k]));
  }

  /** A text starts a new segment when its lower case does. */
  lemma UnLoweredSegment(p: string)
    requires SegmentEnd(Lower(p))
    ensures SegmentEnd(p)
  {
  }

  /** Two host texts joined are host text. */
  lemma HostTextJoin(a: string, b: string)
    requires HostText(a) && HostText(b)
    ensures HostText(a + b)
  {
    assert forall k :: 0 <= k < |a + b| ==> (a + b)[k] == if k < |a| then a[k] else b[k - |a|];
  }

  /** Mapping a front host keeps it host text. */
  lemma UpstreamHostText(h: string)
    requires HostText(h)
    ensures HostText(UpstreamHost(h))
  {
    match FirstFamily(Families, "." + Domain, Lower(h))
    case None =>
    case Some(f) =>
      var a := h[..|f|];
      var b := h[|f| + 1 + |Domain|..];
      assert HostText(a) && HostText(b) && HostText(".org");
      HostTextJoin(a, ".org");
      HostTextJoin(a + ".org", b);
  }

  /**
   * Parsing a name, a dot, a host and a path that starts a new segment gives
   * a subdomain of the host.
   */
  lemma SubdomainHost(scheme: string, sub: string, h: string, p: string)
    requires HostText(sub) && HostText(h) && SegmentEnd(p)
    ensures OnHost(Reparse(scheme, sub + "." + h + p).host, Lower(h))
  {
    HostTextJoin(sub, ".");
    HostTextJoin(sub + ".", h);
    ReparseHost(scheme, sub + "." + h, p);
    LowerSubdomain(sub, h);
  }

  /** Parsing host text and a path that starts a new segment gives the host in lower case. */
  lemma ReparseHost(scheme: string, host: string, p: string)
    requires HostText(host) && SegmentEnd(p)
    ensures Reparse(scheme, host + p).host == Lower(host)
  {
    UntilAppend(host, p, HostStops);
    assert AfterCredentials(host) == host;
  }

  /** The lower case of `a.h` is a subdomain of the lower case of `h`. */
  lemma LowerSubdomain(a: string, h: string)
    ensures OnHost(Lower(a + "." + h), Lower(h))
  {
    LowerConcat(a + ".", h);
    LowerConcat(a, ".");
    var r := Lower(a + "." + h);
    assert r == Lower(a) + ("." + Lower(h));
    assert r[|r| - |h| - 1..] == "." + Lower(h);
  }

}
