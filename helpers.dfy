/**
 * The modular revision of the proxy (src/helpers.ts): the request handler's
 * redirect and HTML decisions, user-agent classification, the mapping of a
 * proxied URL to its upstream URL and back, and the per-attribute rewriting
 * of links in upstream pages.
 *
 * A front host is an upstream domain whose `org` is replaced by the front
 * domain `proxy`: `wikipedia.example.com` stands for `wikipedia.org`, and
 * `upload.wikimedia.example.com` for `upload.wikimedia.org`. Regions travel in
 * the path (`/en/wiki/X`) on the front and in the host (`en.wikipedia.org`,
 * `en.m.wikipedia.org`) upstream.
 */
module Helpers {
  import opened Wrappers
  import opened Text
  import opened Registry
  import opened Urls

  /** A URL with the region its path or host named, and the device flag it was mapped for. */
  datatype ExtendedUrl = ExtendedUrl(url: Url, region: Option<string>, mobile: bool)

  /** The worker's environment: the front domain and the in-page rewrite switch, each possibly unset. */
  datatype Env = Env(proxy: Option<string>, rewriteInPageUrl: Option<string>)

  /** The front domain in force: the environment's, else the configured default. */
  function ProxyOf(env: Env): (p: string)
    ensures env.proxy.Some? ==> p == env.proxy.value
    ensures env.proxy.None? ==> p == Proxy
  {
    env.proxy.GetOr(Proxy)
  }

  /** The upstream domain a front host names: its first `proxy` replaced by `org`. */
  function DomainOf(host: string, proxy: string): string {
    ReplaceFirst(host, proxy, "org")
  }

  /** The front host of an upstream domain: its first `org` replaced by `proxy`. */
  function FrontHost(domain: string, proxy: string): string {
    ReplaceFirst(domain, "org", proxy)
  }

  /** Assigning `url.pathname` on an `http(s)` URL: a value without a leading `/` gets one. */
  function SetPathname(p: string): (r: string)
    ensures |r| > 0 && r[0] == '/'
    ensures |p| > 0 && p[0] == '/' ==> r == p
  {
    if |p| > 0 && p[0] == '/' then p else "/" + p
  }

  /** The upstream host of region `r` for domain `d`: `r.m.d` on mobile devices, `r.d` otherwise. */
  function RegionHost(r: string, mobile: bool, d: string): string {
    if mobile then r + ".m." + d else r + "." + d
  }

  /**
   * `toUpstreamUrl`: a `wikimedia` domain is fetched as is; a `siteMatrix`
   * domain with a path under `/www/` goes to its `www.` host; a `siteMatrix`
   * domain whose first path segment is a region goes to the region's host, with
   * that segment removed from the path; anything else keeps its host and path.
   */
  function ToUpstreamUrl(u: Url, domain: string, mobile: bool): (e: ExtendedUrl)
    ensures e.mobile == mobile && e.url.scheme == u.scheme && e.url.rest == u.rest
    ensures e.region.Some? ==> IsRegion(e.region.value) && domain in SiteMatrix
    ensures e.region.None? && e.url.host != domain && e.url.host != "www." + domain ==> e.url == u
  {
    if domain in Wikimedia then
      ExtendedUrl(u.(host := domain), None, mobile)
    else if domain in SiteMatrix && StartsWith(u.path, "/www/") then
      ExtendedUrl(u.(host := "www." + domain, path := SetPathname(Slice(u.path, 4))), None, mobile)
    else
      var split := Split(u.path, '/');
      if |split| <= 1 then
        ExtendedUrl(u, None, mobile)
      else
        var region := split[1];
        if domain in SiteMatrix && IsRegion(region) then
          var host := RegionHost(region, mobile, domain);
          ExtendedUrl(u.(host := host, path := SetPathname(Slice(u.path, |region| + 1))), Some(region), mobile)
        else
          ExtendedUrl(u, None, mobile)
  }

  /**
   * `toProxiedUrl`: a `wikimedia` host gets the front domain for its `org`; a
   * `www.` host of a `siteMatrix` domain goes to the family's front host under
   * `/www`; a host of three or four labels whose first label is a region goes to
   * the front host of its second-to-last label, with the region put in front of
   * the path; anything else is kept.
   */
  function ToProxiedUrl(u: Url, proxy: string, mobile: bool): (e: ExtendedUrl)
    ensures e.mobile == mobile && e.url.scheme == u.scheme && e.url.rest == u.rest
    ensures e.region.Some? ==> IsRegion(e.region.value) && e.url.path == "/" + e.region.value + u.path
  {
    if u.host in Wikimedia then
      ExtendedUrl(u.(host := ReplaceFirst(u.host, "org", proxy)), None, mobile)
    else
      var host := Slice(u.host, 4);
      if StartsWith(u.host, "www.") && host in SiteMatrix then
        ExtendedUrl(u.(host := ReplaceFirst(host, "org", proxy), path := "/www" + u.path), None, mobile)
      else
        var split := Split(u.host, '.');
        if |split| < 3 || |split| > 4 then
          ExtendedUrl(u, None, mobile)
        else if IsRegion(split[0]) then
          ExtendedUrl(u.(host := split[|split| - 2] + "." + proxy, path := "/" + split[0] + u.path), Some(split[0]), mobile)
        else
          ExtendedUrl(u, None, mobile)
  }

  // ------------------------------------------------------------ host labels

  /** A `siteMatrix` domain is its family label and `org`. */
  lemma FamilyLabels(d: FamilyDomain)
    ensures Split(d, '.') == [Stem(d), "org"]
  {
    FamilyDomainForm(d);
    var f := Stem(d);
    assert '.' !in "org";
    SplitSingle("org", '.');
    assert d == f + ['.'] + "org";
    SplitCons(f, "org", '.');
  }

  /** A `wikimedia` domain is three labels, the middle one `wikimedia`. */
  lemma SpecialLabels(x: SpecialDomain)
    ensures Split(x, '.') == [x[..|x| - 14], "wikimedia", "org"]
  {
    SpecialDomainForm(x);
    var sub := x[..|x| - 14];
    LabelDotless(sub);
    WikimediaLabels();
    assert x == sub + ['.'] + ("wikimedia" + ['.'] + "org");
    SplitCons(sub, "wikimedia" + ['.'] + "org", '.');
  }

  lemma WikimediaLabels()
    ensures Split("wikimedia" + ['.'] + "org", '.') == ["wikimedia", "org"]
  {
    assert '.' !in "org" && '.' !in "wikimedia";
    SplitSingle("org", '.');
    SplitCons("wikimedia", "org", '.');
  }

  /** The labels of a region host: the region, `m` on mobile devices, the family and `org`. */
  lemma RegionHostLabels(r: string, mobile: bool, d: FamilyDomain)
    requires '.' !in r
    ensures Split(RegionHost(r, mobile, d), '.') == if mobile then [r, "m", Stem(d), "org"] else [r, Stem(d), "org"]
  {
    FamilyLabels(d);
    if mobile {
      assert '.' !in "m";
      SplitCons("m", d, '.');
      assert r + ".m." + d == r + ['.'] + ("m" + ['.'] + d);
      SplitCons(r, "m" + ['.'] + d, '.');
    } else {
      assert r + "." + d == r + ['.'] + d;
      SplitCons(r, d, '.');
    }
  }

  /** A region host is never a `wikimedia` entry. */
  lemma RegionHostNotSpecial(r: string, mobile: bool, d: string)
    requires '.' !in r && d in SiteMatrix
    ensures RegionHost(r, mobile, d) !in Wikimedia
  {
    if mobile {
      RegionHostLabels(r, mobile, d);
      forall x | x in Wikimedia
        ensures |Split(x, '.')| == 3
      {
        SpecialLabels(x);
      }
    } else {
      LabelledFamilyNotSpecial(r, d);
    }
  }

  /** A host that starts with `www.` and with a one-label `a` and a dot has `a == "www"`. */
  lemma WwwFirstLabel(a: string, t: string)
    requires '.' !in a
    ensures StartsWith(a + "." + t, "www.") ==> a == "www"
  {
    var h := a + "." + t;
    SplitCons(a, t, '.');
    if StartsWith(h, "www.") {
      assert h == "www" + "." + h[4..];
      SplitCons("www", h[4..], '.');
    }
  }

  /** A path whose first segment is `a` starts with `/www/` only when `a` is `www`. */
  lemma WwwFirstSegment(a: string, tail: string)
    requires '/' !in a && (|tail| == 0 || tail[0] == '/')
    ensures StartsWith("/" + a + tail, "/www/") ==> a == "www"
  {
    var p := "/" + a + tail;
    SplitSecond(a, tail, '/');
    if StartsWith(p, "/www/") {
      assert p == "/" + "www" + p[4..];
      assert p[4..][0] == p[4] == '/';
      SplitSecond("www", p[4..], '/');
    }
  }

  // ------------------------------------------------------- upstream mapping

  /** A `wikimedia` domain is fetched from itself, path untouched, with no region. */
  lemma UpstreamOfSpecial(u: Url, d: string, mobile: bool)
    requires d in Wikimedia
    ensures ToUpstreamUrl(u, d, mobile) == ExtendedUrl(u.(host := d), None, mobile)
  {
  }

  /** A `siteMatrix` domain under `/www/` is fetched from its `www.` host without the `/www` prefix. */
  lemma UpstreamOfWww(u: Url, d: string, mobile: bool, tail: string)
    requires d in SiteMatrix && u.path == "/www" + tail && StartsWith(tail, "/")
    ensures ToUpstreamUrl(u, d, mobile) == ExtendedUrl(u.(host := "www." + d, path := tail), None, mobile)
  {
    FamilyNotSpecial(d);
    assert u.path[..5] == "/www/";
    assert u.path[4..] == tail;
  }

  /**
   * A `siteMatrix` domain whose first path segment is a region `r` is fetched from
   * `r.m.d` or `r.d`, with `/r` taken off the path; an `/m` segment after it stays
   * in the path.
   */
  lemma UpstreamOfRegion(u: Url, d: string, mobile: bool, r: string, tail: string)
    requires d in SiteMatrix && IsRegion(r)
    requires u.path == "/" + r + tail && (|tail| == 0 || tail[0] == '/')
    ensures ToUpstreamUrl(u, d, mobile) ==
      ExtendedUrl(u.(host := RegionHost(r, mobile, d), path := if |tail| == 0 then "/" else tail), Some(r), mobile)
  {
    FamilyNotSpecial(d);
    RegionShape(r);
    WwwNotRegion();
    WwwFirstSegment(r, tail);
    SplitSecond(r, tail, '/');
    assert u.path[|r| + 1..] == tail;
  }

  /** A domain in neither table keeps its host and path and gets no region. */
  lemma UpstreamOfUnlisted(u: Url, d: string, mobile: bool)
    requires d !in SiteMatrix && d !in Wikimedia
    ensures ToUpstreamUrl(u, d, mobile) == ExtendedUrl(u, None, mobile)
  {
  }

  /** A `siteMatrix` domain whose first path segment is not a region (and not `www` with more after it) is kept. */
  lemma UpstreamOfOtherSegment(u: Url, d: string, mobile: bool, a: string, tail: string)
    requires d in SiteMatrix && !IsRegion(a) && '/' !in a
    requires u.path == "/" + a + tail && (|tail| == 0 || tail[0] == '/')
    requires !StartsWith(u.path, "/www/")
    ensures ToUpstreamUrl(u, d, mobile) == ExtendedUrl(u, None, mobile)
  {
    FamilyNotSpecial(d);
    SplitSecond(a, tail, '/');
  }

  // -------------------------------------------------------- proxied mapping

  /** A `wikimedia` host gets the front domain in place of its `org`, and nothing else changes. */
  lemma ProxiedOfSpecial(u: Url, proxy: string, mobile: bool)
    requires u.host in Wikimedia
    ensures ToProxiedUrl(u, proxy, mobile) == ExtendedUrl(u.(host := Stem(u.host) + "." + proxy), None, mobile)
  {
    ReplaceOrgInDomain(u.host, proxy);
  }

  /** `www.<f>.org` goes to `<f>.<proxy>` with `/www` in front of the path. */
  lemma ProxiedOfWww(u: Url, proxy: string, mobile: bool, d: string)
    requires d in SiteMatrix && u.host == "www." + d
    ensures ToProxiedUrl(u, proxy, mobile) ==
      ExtendedUrl(u.(host := Stem(d) + "." + proxy, path := "/www" + u.path), None, mobile)
  {
    assert '.' !in "www";
    assert "www" + "." + d == u.host;
    LabelledFamilyNotSpecial("www", d);
    assert StartsWith(u.host, "www.");
    assert Slice(u.host, 4) == d;
    ReplaceOrgInDomain(d, proxy);
  }

  /**
   * A region host `r.<f>.org` or `r.m.<f>.org` goes to `<f>.<proxy>` with `/r`
   * in front of the path, whatever the device flag; the `m` label is dropped.
   */
  lemma ProxiedOfRegion(u: Url, proxy: string, mobile: bool, r: string, hostMobile: bool, d: FamilyDomain)
    requires IsRegion(r) && d in SiteMatrix && u.host == RegionHost(r, hostMobile, d)
    ensures ToProxiedUrl(u, proxy, mobile) ==
      ExtendedUrl(u.(host := Stem(d) + "." + proxy, path := "/" + r + u.path), Some(r), mobile)
  {
    RegionShape(r);
    RegionHostNotSpecial(r, hostMobile, d);
    RegionHostLabels(r, hostMobile, d);
    ProxiedOfCodedHost(u, proxy, mobile);
  }

  /**
   * Any host of three or four labels whose first label is a region code, and
   * that is no `wikimedia` entry, goes to the front host of its second-to-last
   * label with the first label in front of the path. The labels in between
   * are dropped, whatever they are, and the host need not be a registry domain.
   */
  lemma ProxiedOfCodedHost(u: Url, proxy: string, mobile: bool)
    requires u.host !in Wikimedia
    requires 3 <= |Split(u.host, '.')| <= 4 && IsRegion(Split(u.host, '.')[0])
    ensures var s := Split(u.host, '.');
      ToProxiedUrl(u, proxy, mobile) ==
        ExtendedUrl(u.(host := s[|s| - 2] + "." + proxy, path := "/" + s[0] + u.path), Some(s[0]), mobile)
  {
    WwwNotRegion();
    if StartsWith(u.host, "www.") {
      assert u.host == "www" + ['.'] + u.host[4..];
      SplitCons("www", u.host[4..], '.');
    }
  }

  /** A region host does not start with `www.`, since `www` is not a region. */
  lemma RegionHostNotWww(r: string, hostMobile: bool, d: FamilyDomain)
    requires '.' !in r && r != "www"
    ensures !StartsWith(RegionHost(r, hostMobile, d), "www.")
  {
    if hostMobile {
      assert r + ".m." + d == r + "." + ("m." + d);
      WwwFirstLabel(r, "m." + d);
    } else {
      WwwFirstLabel(r, d);
    }
  }

  /** A host that is not `www.`-prefixed, not `wikimedia`, and not three or four labels starting with a region, is kept. */
  lemma ProxiedOfOther(u: Url, proxy: string, mobile: bool)
    requires u.host !in Wikimedia && !StartsWith(u.host, "www.")
    requires var n := |Split(u.host, '.')|; n < 3 || n > 4 || !IsRegion(Split(u.host, '.')[0])
    ensures ToProxiedUrl(u, proxy, mobile) == ExtendedUrl(u, None, mobile)
  {
  }

  // ------------------------------------------------------------ round trips

  /** The front host of a registry domain is its stem, a dot and the front domain. */
  lemma FrontHostForm(d: string, proxy: string)
    requires d in SiteMatrix || d in Wikimedia
    ensures OrgTld(d) && FrontHost(d, proxy) == Stem(d) + "." + proxy
  {
    ReplaceOrgInDomain(d, proxy);
  }

  /** A distinctive front domain has a character that occurs once in it and nowhere in `d`. */
  lemma DistinctiveChar(d: string, proxy: string) returns (k: nat)
    requires d in SiteMatrix || d in Wikimedia
    requires DistinctiveProxy(proxy)
    ensures k < |proxy| && OnceIn(proxy, k) && proxy[k] !in d
  {
    k :| 0 <= k < |proxy| && OnceIn(proxy, k)
      && (forall y :: y in SiteMatrix ==> proxy[k] !in y) && (forall y :: y in Wikimedia ==> proxy[k] !in y);
  }

  /** Replacing the front domain by `org` in `<stem>.<proxy>` gives `<stem>.org` back when `proxy[k]` is not in it. */
  lemma UnfrontHost(d: string, proxy: string, k: nat)
    requires OrgTld(d)
    requires k < |proxy| && OnceIn(proxy, k) && proxy[k] !in d
    ensures DomainOf(Stem(d) + "." + proxy, proxy) == d
  {
    var x := Stem(d) + ".";
    assert d == x + "org";
    assert forall i :: 0 <= i < |x| ==> x[i] == d[i];
    assert proxy[k] !in x;
    ReplaceAppended(x, proxy, k, "org");
    assert Stem(d) + "." + proxy == x + proxy;
  }

  /**
   * With a distinctive front domain, the handler's `host.replace(proxy, "org")`
   * recovers the registry domain from its front host.
   */
  lemma DomainOfFrontHost(d: string, proxy: string)
    requires d in SiteMatrix || d in Wikimedia
    requires DistinctiveProxy(proxy)
    ensures DomainOf(FrontHost(d, proxy), proxy) == d
  {
    FrontHostForm(d, proxy);
    var k := DistinctiveChar(d, proxy);
    UnfrontHost(d, proxy, k);
  }

  /** `/www/…` on a family's front host maps upstream and back to itself. */
  lemma RoundTripWww(u: Url, d: string, proxy: string, mobile: bool)
    requires d in SiteMatrix && u.host == FrontHost(d, proxy) && StartsWith(u.path, "/www/")
    ensures ToUpstreamUrl(u, d, mobile).region.None?
    ensures ToProxiedUrl(ToUpstreamUrl(u, d, mobile).url, proxy, mobile) == ExtendedUrl(u, None, mobile)
  {
    var v := WwwLeg(u, d, mobile);
    ProxiedOfWww(v, proxy, mobile, d);
    FrontHostForm(d, proxy);
  }

  /** The upstream leg of `RoundTripWww`: the `www.` host, and the path without `/www`. */
  lemma WwwLeg(u: Url, d: string, mobile: bool) returns (v: Url)
    requires d in SiteMatrix && StartsWith(u.path, "/www/")
    ensures v.host == "www." + d && "/www" + v.path == u.path && v.(host := u.host, path := u.path) == u
    ensures ToUpstreamUrl(u, d, mobile) == ExtendedUrl(v, None, mobile)
  {
    var tail := u.path[4..];
    assert u.path == "/www" + tail;
    v := u.(host := "www." + d, path := tail);
    UpstreamOfWww(u, d, mobile, tail);
  }

  /** `/r/…` on a family's front host maps upstream to the region's host and back to itself, on either device. */
  lemma RoundTripRegion(u: Url, d: string, proxy: string, mobile: bool, r: string, tail: string)
    requires d in SiteMatrix && IsRegion(r) && u.host == FrontHost(d, proxy)
    requires u.path == "/" + r + tail && |tail| > 0 && tail[0] == '/'
    ensures ToUpstreamUrl(u, d, mobile).region == Some(r)
    ensures ToProxiedUrl(ToUpstreamUrl(u, d, mobile).url, proxy, mobile) == ExtendedUrl(u, Some(r), mobile)
  {
    UpstreamOfRegion(u, d, mobile, r, tail);
    ProxiedOfRegion(u.(host := RegionHost(r, mobile, d), path := tail), proxy, mobile, r, mobile, d);
    FrontHostForm(d, proxy);
  }

  /** Any path on a `wikimedia` front host maps upstream and back to itself. */
  lemma RoundTripSpecial(u: Url, d: string, proxy: string, mobile: bool)
    requires d in Wikimedia && u.host == FrontHost(d, proxy)
    ensures ToUpstreamUrl(u, d, mobile).region.None?
    ensures ToProxiedUrl(ToUpstreamUrl(u, d, mobile).url, proxy, mobile) == ExtendedUrl(u, None, mobile)
  {
    ProxiedOfSpecial(u.(host := d), proxy, mobile);
    FrontHostForm(d, proxy);
  }

  /**
   * The reverse direction for region hosts: an upstream page on `r.<f>.org`
   * (or `r.m.<f>.org` for a mobile client) maps to the front and, through the
   * domain the handler computes, back to the same upstream URL.
   */
  lemma RoundTripFromUpstream(v: Url, d: string, proxy: string, mobile: bool, r: string)
    requires d in SiteMatrix && IsRegion(r) && v.host == RegionHost(r, mobile, d)
    requires DistinctiveProxy(proxy) && |v.path| > 0 && v.path[0] == '/'
    ensures var front := ToProxiedUrl(v, proxy, mobile).url;
      ToUpstreamUrl(front, DomainOf(front.host, proxy), mobile) == ExtendedUrl(v, Some(r), mobile)
  {
    ProxiedOfRegion(v, proxy, mobile, r, mobile, d);
    FrontHostForm(d, proxy);
    DomainOfFrontHost(d, proxy);
    RegionShape(r);
    var front := v.(host := Stem(d) + "." + proxy, path := "/" + r + v.path);
    UpstreamOfRegion(front, d, mobile, r, v.path);
  }

  // ------------------------------------------------------- device detection

  /** The device names `detectMobileDevice` looks for, in its order. */
  const DeviceList: seq<string> := ["android", "iphone", "ipad", "ipod", "symbianos", "windows phone"]

  /** The user agent is present and its lower-case form contains one of the device names. */
  predicate MobileAgent(userAgent: Option<string>) {
    userAgent.Some? && exists i :: 0 <= i < |DeviceList| && Contains(Lower(userAgent.value), Lower(DeviceList[i]))
  }

  /**
   * `detectMobileDevice` as written: the loop body returns on its first
   * iteration, so only the first device name is ever looked for.
   */
  method DetectMobileDeviceAsWritten(userAgent: Option<string>, deviceList: seq<string>) returns (mobile: bool)
    ensures mobile <==> userAgent.Some? && |deviceList| > 0 && Contains(Lower(userAgent.value), Lower(deviceList[0]))
  {
    if userAgent.None? {
      return false;
    }
    var agent := Lower(userAgent.value);
    for i := 0 to |deviceList|
      invariant i == 0
    {
      return Contains(agent, Lower(deviceList[i]));
    }
    return false;
  }

  /** `detectMobileDevice` with the loop running over every device name. */
  method DetectMobileDevice(userAgent: Option<string>) returns (mobile: bool)
    ensures mobile <==> MobileAgent(userAgent)
  {
    if userAgent.None? {
      return false;
    }
    var agent := Lower(userAgent.value);
    for i := 0 to |DeviceList|
      invariant forall j :: 0 <= j < i ==> !Contains(agent, Lower(DeviceList[j]))
    {
      if Contains(agent, Lower(DeviceList[i])) {
        return true;
      }
    }
    return false;
  }

  /** As written, with its own device list, the detection is exactly "contains `android`". */
  lemma AsWrittenDetectsAndroidOnly(userAgent: Option<string>)
    ensures (userAgent.Some? && |DeviceList| > 0 && Contains(Lower(userAgent.value), Lower(DeviceList[0])))
        <==> AndroidAgent(userAgent)
  {
    LowerFixed("android");
  }

  /** The test `detectMobileDevice` performs as written: a user agent is present and its lower case contains `android`. */
  predicate AndroidAgent(userAgent: Option<string>) {
    userAgent.Some? && Contains(Lower(userAgent.value), "android")
  }

  /** An iPhone user agent is mobile by the intended test but not by the code as written. */
  lemma IphoneMissedAsWritten()
    ensures MobileAgent(Some("iPhone"))
    ensures !Contains(Lower("iPhone"), Lower(DeviceList[0]))
  {
    var agent := Lower("iPhone");
    assert agent == "iphone";
    LowerFixed("iphone");
    assert OccursAt(agent, Lower(DeviceList[1]), 0);
    LowerFixed("android");
    assert 'a' !in agent;
    AbsentFrom(agent, "android", 0);
  }

  // --------------------------------------------------------- request handler

  /** An `HTMLRewriter` handler: the element tag and the attribute it rewrites. */
  datatype Rewriting = Rewriting(tag: string, attributeName: string)

  /** What the handler answers: a redirect, or the upstream fetch and the rewriters applied to its body. */
  datatype Outcome = Redirect(location: string, status: int) | Fetch(upstream: ExtendedUrl, rewritings: seq<Rewriting>)

  /** The handlers attached to an HTML response: `a href`, `img src`, `script src`. */
  const HtmlRewritings: seq<Rewriting> := [Rewriting("a", "href"), Rewriting("img", "src"), Rewriting("script", "src")]

  /** The upstream response's `content-type` is present and starts with `text/html`. */
  predicate IsHtml(contentType: Option<string>) {
    contentType.Some? && StartsWith(contentType.value, "text/html")
  }

  /**
   * `handleRequest`: the root of a family's front host is redirected to its
   * `/www/` page; any other request is fetched from the upstream URL, and an
   * HTML response gets its links rewritten. The device flag is that of
   * `detectMobileDevice` as written, so only an `android` user agent is mobile.
   * The upstream response's content type is a parameter.
   */
  method HandleRequest(url: Url, env: Env, userAgent: Option<string>, contentType: Option<string>) returns (outcome: Outcome)
    ensures outcome.Redirect? <==> DomainOf(url.host, ProxyOf(env)) in SiteMatrix && url.path == "/"
    ensures outcome.Redirect? ==> outcome.location == Href(url.(path := "/www/")) && outcome.status == RedirectStatus
    ensures outcome.Fetch? ==> outcome.upstream == ToUpstreamUrl(url, DomainOf(url.host, ProxyOf(env)), AndroidAgent(userAgent))
    ensures outcome.Fetch? ==> outcome.rewritings == if IsHtml(contentType) then HtmlRewritings else []
  {
    var proxy := ProxyOf(env);
    var domain := DomainOf(url.host, proxy);
    if domain in SiteMatrix && url.path == "/" {
      var location := url.(path := "/www/");
      return Redirect(Href(location), RedirectStatus);
    }
    var mobile := DetectMobileDeviceAsWritten(userAgent, DeviceList);
    AsWrittenDetectsAndroidOnly(userAgent);
    var upstream := ToUpstreamUrl(url, domain, mobile);
    if contentType.Some? && StartsWith(contentType.value, "text/html") {
      return Fetch(upstream, HtmlRewritings);
    }
    return Fetch(upstream, []);
  }

  /** With a distinctive front domain, the root of a family's front host is what gets redirected. */
  lemma RootRedirected(url: Url, d: string, proxy: string)
    requires d in SiteMatrix && DistinctiveProxy(proxy) && url.host == FrontHost(d, proxy)
    ensures DomainOf(url.host, proxy) in SiteMatrix
  {
    DomainOfFrontHost(d, proxy);
  }

  // ------------------------------------------------------ attribute rewriter

  /** An HTML element as the rewriter sees it: its attributes by name. */
  class Element {
    var attributes: map<string, string>

    constructor(attributes: map<string, string>)
      ensures this.attributes == attributes
    {
      this.attributes := attributes;
    }

    /** `getAttribute`: the value, or `None` when the attribute is absent. */
    function GetAttribute(name: string): (r: Option<string>)
      reads this
      ensures r.Some? <==> name in attributes
      ensures r.Some? ==> r.value == attributes[name]
    {
      if name in attributes then Some(attributes[name]) else None
    }

    /** `setAttribute`: the one attribute gets the value, the others stay. */
    method SetAttribute(name: string, value: string)
      modifies this
      ensures attributes == old(attributes)[name := value]
    {
      attributes := attributes[name := value];
    }
  }

  /** What `element` does to an attribute: leave it, give it a new value, or fail on text that is not a URL. */
  datatype Action = Keep | Set(value: string) | Invalid

  /** A protocol-relative value (`//host/...`) gets the page's protocol; any other value is used as is. */
  function Absolute(attribute: string, page: ExtendedUrl): (r: string)
    ensures StartsWith(attribute, "//") ==> r == page.url.scheme + attribute
    ensures !StartsWith(attribute, "//") ==> r == attribute
  {
    if StartsWith(attribute, "//") then page.url.scheme + attribute else attribute
  }

  /** `/^\/[^\/]/`: a path on the same origin, a `/` followed by anything but another `/`. */
  predicate SameOriginPath(attribute: string) {
    |attribute| >= 2 && attribute[0] == '/' && attribute[1] != '/'
  }

  /**
   * The decision `AttributeRewriter.element` takes. A link that names a
   * registry domain is, when in-page rewriting is switched on, parsed and
   * mapped to the front; otherwise a same-origin path gets the page's region
   * in front of it.
   */
  function AttributeAction(attribute: Option<string>, rewriteInPageUrl: Option<string>, page: ExtendedUrl, proxy: string): Action {
    match attribute
    case None => Keep
    case Some(a) =>
      if rewriteInPageUrl == Some("yes") && SiteRegexMatches(a) then
        match ParseUrl(Absolute(a, page))
        case None => Invalid
        case Some(u) => Set(Href(ToProxiedUrl(u, proxy, page.mobile).url))
      else if !SameOriginPath(a) then Keep
      else if page.region.Some? then Set("/" + page.region.value + a)
      else Keep
  }

  /** `AttributeRewriter`: rewrites one attribute of the elements it is attached to, for one upstream page. */
  class AttributeRewriter {
    const env: Env
    const attributeName: string
    const upstreamUrl: ExtendedUrl
    const proxy: string

    constructor(attributeName: string, env: Env, upstreamUrl: ExtendedUrl)
      ensures this.attributeName == attributeName && this.env == env && this.upstreamUrl == upstreamUrl
      ensures proxy == ProxyOf(env)
    {
      this.env := env;
      this.attributeName := attributeName;
      this.upstreamUrl := upstreamUrl;
      this.proxy := ProxyOf(env);
    }

    /**
     * `element`: applies `AttributeAction` to the element's attribute. It
     * answers `false` where the code would throw, on a matching value that is
     * not a URL; the element is then left alone.
     */
    method Element(element: Element) returns (ok: bool)
      modifies element
      ensures var action := AttributeAction(old(element.GetAttribute(attributeName)), env.rewriteInPageUrl, upstreamUrl, proxy);
        && ok == !action.Invalid?
        && element.attributes == if action.Set? then old(element.attributes)[attributeName := action.value] else old(element.attributes)
    {
      var attribute := element.GetAttribute(attributeName);
      if attribute.None? {
        return true;
      }
      var value := attribute.value;
      if env.rewriteInPageUrl == Some("yes") && SiteRegexMatches(value) {
        if StartsWith(value, "//") {
          value := upstreamUrl.url.scheme + value;
        }
        var parsed := ParseUrl(value);
        if parsed.None? {
          return false;
        }
        element.SetAttribute(attributeName, Href(ToProxiedUrl(parsed.value, proxy, upstreamUrl.mobile).url));
      } else {
        if !SameOriginPath(value) {
          return true;
        }
        if upstreamUrl.region.Some? {
          element.SetAttribute(attributeName, "/" + upstreamUrl.region.value + value);
        }
      }
      return true;
    }
  }

  /** Text holding a registry domain passes the rewrite guard. */
  lemma DomainInText(s: string, i: nat, d: string)
    requires d in SiteMatrix || d in Wikimedia
    requires i + |d| <= |s| && s[i..i + |d|] == d
    ensures SiteRegexMatches(s)
  {
    RegistryLowerCase(d);
    SiteRegexDomains(d);
    assert SiteRegexWord(s[i..i + |d|]);
  }

  /** Absolute branch: a link naming a registry domain is replaced by the front form of what it parses to. */
  lemma InPageLink(a: string, page: ExtendedUrl, proxy: string, u: Url)
    requires SiteRegexMatches(a) && ParseUrl(Absolute(a, page)) == Some(u)
    ensures AttributeAction(Some(a), Some("yes"), page, proxy) == Set(Href(ToProxiedUrl(u, proxy, page.mobile).url))
  {
  }

  /** The absolute branch runs only when in-page rewriting is switched on by exactly `yes`. */
  lemma InPageNeedsYes(a: string, flag: Option<string>, page: ExtendedUrl, proxy: string)
    requires flag != Some("yes")
    ensures AttributeAction(Some(a), flag, page, proxy) == if SameOriginPath(a) && page.region.Some? then Set("/" + page.region.value + a) else Keep
  {
  }

  /**
   * An in-page link to a region page `r.<f>.org` (or `r.m.<f>.org`) becomes the
   * front URL `<f>.<proxy>/r/...`, and that URL maps upstream back to the link.
   */
  lemma InPageRegionLink(v: Url, page: ExtendedUrl, proxy: string, r: string, d: string)
    requires WellFormed(v) && d in SiteMatrix && IsRegion(r) && v.host == RegionHost(r, page.mobile, d)
    requires |v.path| > 0 && v.path[0] == '/' && DistinctiveProxy(proxy)
    ensures var front := v.(host := Stem(d) + "." + proxy, path := "/" + r + v.path);
      && AttributeAction(Some(Href(v)), Some("yes"), page, proxy) == Set(Href(front))
      && ToUpstreamUrl(front, DomainOf(front.host, proxy), page.mobile) == ExtendedUrl(v, Some(r), page.mobile)
  {
    RegionLinkMatches(v, r, page.mobile, d);
    ParseHref(v);
    InPageLink(Href(v), page, proxy, v);
    ProxiedOfRegion(v, proxy, page.mobile, r, page.mobile, d);
    RoundTripFromUpstream(v, d, proxy, page.mobile, r);
  }

  /** The serialised URL of a region page passes the guard and is not protocol-relative. */
  lemma RegionLinkMatches(v: Url, r: string, mobile: bool, d: string)
    requires WellFormed(v) && d in SiteMatrix && v.host == RegionHost(r, mobile, d)
    ensures SiteRegexMatches(Href(v)) && !StartsWith(Href(v), "//")
  {
    var x := if mobile then r + ".m." else r + ".";
    assert v.host == x + d;
    HrefAround(v, x, d);
    GuardOnInfix(v.scheme + "//" + x, d, v.path + v.rest);
    WebNotRelative(v);
  }

  lemma HrefAround(v: Url, x: string, d: string)
    requires v.host == x + d
    ensures Href(v) == (v.scheme + "//" + x) + d + (v.path + v.rest)
  {
  }

  /** Text with a registry domain inside passes the guard. */
  lemma GuardOnInfix(a: string, d: string, b: string)
    requires d in SiteMatrix || d in Wikimedia
    ensures SiteRegexMatches(a + d + b)
  {
    assert (a + d + b)[|a|..|a| + |d|] == d;
    DomainInText(a + d + b, |a|, d);
  }

  /** A serialised `http(s)` URL does not start with `//`. */
  lemma WebNotRelative(v: Url)
    requires WebScheme(v.scheme)
    ensures !StartsWith(Href(v), "//")
  {
    assert Href(v)[0] == v.scheme[0];
  }

  /** Relative branch: a same-origin path on a page with region `r` gets `/r` in front, with no mobile marker. */
  lemma RelativeLink(a: string, flag: Option<string>, page: ExtendedUrl, proxy: string, r: string)
    requires SameOriginPath(a) && page.region == Some(r)
    requires !(flag == Some("yes") && SiteRegexMatches(a))
    ensures AttributeAction(Some(a), flag, page, proxy) == Set("/" + r + a)
  {
  }

  /** Relative branch: other values (`//…`, `#…`, relative paths, `/` alone), and any value on a page without a region, are kept. */
  lemma RelativeKept(a: string, flag: Option<string>, page: ExtendedUrl, proxy: string)
    requires !(flag == Some("yes") && SiteRegexMatches(a))
    requires !SameOriginPath(a) || page.region.None?
    ensures AttributeAction(Some(a), flag, page, proxy) == Keep
  {
  }

  /**
   * A same-origin path rewritten on a page fetched from region `r`, requested
   * on the family's front host, is fetched from that region's host with the
   * original path.
   */
  lemma RelativeLinkRoundTrip(a: string, u: Url, d: string, proxy: string, mobile: bool, r: string)
    requires SameOriginPath(a) && d in SiteMatrix && IsRegion(r)
    requires u.path == "/" + r + a
    ensures ToUpstreamUrl(u, d, mobile) == ExtendedUrl(u.(host := RegionHost(r, mobile, d), path := a), Some(r), mobile)
  {
    UpstreamOfRegion(u, d, mobile, r, a);
  }

  // ------------------------------------------------------ rewrite guard as written

  /** A line terminator, which an unescaped `.` in a regular expression does not match. */
  predicate LineTerminator(c: char) {
    c == '\n' || c == '\r' || c == '\U{2028}' || c == '\U{2029}'
  }

  /** `pat` matches `s` at `j`, every `.` of `pat` standing for any character but a line terminator. */
  predicate WildcardAt(s: string, pat: string, j: int) {
    0 <= j && j + |pat| <= |s|
    && forall k :: 0 <= k < |pat| ==> if pat[k] == '.' then !LineTerminator(s[j + k]) else s[j + k] == pat[k]
  }

  /**
   * The guard as the class builds it: the two lists interpolated into the
   * pattern are joined with commas, the `\.` of the template literal loses its
   * backslash, and no flags apply. Each alternative is one whole comma-joined
   * list followed by any character and `org`.
   */
  predicate GuardAsWritten(s: string) {
    exists j :: 0 <= j <= |s| && (WildcardAt(s, Join(SiteMatrix, ',') + ".org", j) || WildcardAt(s, Join(Wikimedia, ',') + ".org", j))
  }

  /**
   * The guard as written needs at least 107 characters, the length of the
   * shorter alternative (the comma-joined `wikimedia` list and `.org`), so no
   * single link passes it.
   */
  lemma GuardAsWrittenLength(s: string)
    requires GuardAsWritten(s)
    ensures |s| >= 107
  {
    JoinedTablesLength();
  }

  /** The two comma-joined lists are 115 and 103 characters long. */
  lemma JoinedTablesLength()
    ensures |Join(SiteMatrix, ',')| == 115 && |Join(Wikimedia, ',')| == 103
  {
    JoinLengthExact(SiteMatrix, ',');
    JoinLengthExact(Wikimedia, ',');
    TotalLengthAppend(SiteMatrixA, SiteMatrixB);
    TotalLengthAppend(WikimediaA + WikimediaB + WikimediaC + WikimediaD, WikimediaE);
    TotalLengthAppend(WikimediaA + WikimediaB + WikimediaC, WikimediaD);
    TotalLengthAppend(WikimediaA + WikimediaB, WikimediaC);
    TotalLengthAppend(WikimediaA, WikimediaB);
    assert TotalLength(SiteMatrixA) == 13 + (14 + (13 + (12 + TotalLength([]))));
    assert TotalLength(SiteMatrixB) == 13 + (14 + (15 + (14 + TotalLength([]))));
  }

  /** `//en.wikipedia.org/` names a registry domain, yet the guard as written rejects it. */
  lemma GuardAsWrittenMissesLink()
    ensures SiteRegexMatches("//en." + "wikipedia.org" + "/")
    ensures !GuardAsWritten("//en." + "wikipedia.org" + "/")
  {
    var s := "//en." + "wikipedia.org" + "/";
    GuardOnInfix("//en.", "wikipedia.org", "/");
    if GuardAsWritten(s) {
      GuardAsWrittenLength(s);
    }
  }
}
