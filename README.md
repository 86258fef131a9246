# wikipedia-proxy in Dafny

A model of the URL-mapping engine of a Wikipedia reverse proxy that runs as a
Cloudflare Worker. The proxy answers on a front domain (`example.com` by
default). A front URL such as `https://wikipedia.example.com/en/wiki/X` stands
for the upstream URL `https://en.wikipedia.org/wiki/X`. Requests are mapped
upstream, and links in the fetched HTML pages are mapped back to the front.

The repository holds two revisions of this engine. Both are modelled over one
registry of region codes and project domains.

- `registry.dfy` (module `Registry`): the tables of `src/config.ts`:
  - `region`: 333 codes in their published order;
  - `siteMatrix`: the projects with one subdomain per region;
  - `wikimedia`: the global projects;
  - `siteRegex`: the pattern naming all of them;
  - the front domain and the redirect status.
  
  The lemmas state the table shapes the mappings rely on:
  - codes are dotless, lower-case letters and hyphens;
  - neither `www` nor `m` is a code;
  - `org` is only ever the last label;
  - the two domain tables are disjoint;
  - `siteRegex` names exactly `siteMatrix`, `wikimedia` and `wikimedia.org`.
- `helpers.dfy` (module `Helpers`): the modular revision in `src/helpers.ts`:
  - the redirect and `text/html` decisions of `handleRequest`;
  - `detectMobileDevice`, both as written, which the handler uses, and as evidently intended, the test `isMobile` of `src/index.ts` also performs;
  - `toUpstreamUrl` and `toProxiedUrl`, as pure functions on a URL record returning `ExtendedUrl`;
  - `AttributeRewriter`, as a class whose `Element` method updates an element's attribute map in place.
  
  The round trip upstream and back restores the front URL for the `www`, region and `wikimedia` cases.
- `index.dfy` (module `Index`): the earlier regular-expression revision in `src/index.ts`.
  - It covers the redirect test of `handleRequest`, `isMobile`, `url2UpstreamUrl` and `upstreamUrl2Url`.
  - The URL object is a class, `WebUrl`. The two mappings are methods that overwrite its fields and return the same object.
  - Each method is proved equal to a specification function, `UpstreamTarget` or `ProxiedTarget`.
  - Each regular expression is the string function it computes.
    - Letters are compared in ASCII lower case, because of the `gi` flags.
    - The region alternation picks the first listed code that is a prefix.
    - The lone `.` in front of the domain in the host test, and the `.` in `w/(api|load).php`, match any character but a line terminator.
  - The lemmas prove the mappings case by case, with their round trips and their quirks:
    - `/zh-yue/…` is read as region `zh`;
    - the desktop path comes back under `/<r>/undefined`;
    - the front host comes back glued to the domain with no dot;
    - a `/www` path can never reach the `www` branch through the handler;
    - text glued to a region code ends up in the host the URL is parsed again with, so for `/en/m@evil.com` the upstream URL is `https://en.m.wikipedia.org@evil.com/`, whose host is `evil.com`, and the request is sent to the host `evil.com` (or rejected where `fetch` refuses a URL with credentials) (see Findings). `SegmentUpstreamTarget` is the mapping with the patterns closed at a segment end, proved to stay on the mapped host; the handler keeps the mapping as written.
- `text.dfy` (module `Text`): the JavaScript string operations the code uses: `startsWith`, `indexOf`, `replace` with a string pattern, `split`, `join`, `toLowerCase`, and `slice`.
- `urls.dfy` (module `Urls`): a URL as `{scheme, host, path, rest}`, and its serialisation.
  - Parsing covers absolute `http:`/`https:` URLs only.
  - Serialising a parsed URL gives the text back.
- `wrappers.dfy` (module `Wrappers`): `Option`, for JavaScript's `null` and `undefined`.

Where the source and its declared types disagree, the model follows the code:
- `src/types.ts` declares `ExtendedUrl.mobile` as `string | null`, but the code always stores a boolean there, so the datatype field is a `bool`.
- `src/helpers.ts` reads `config.siteMatrixX`, `config.wikimediaX` and `config.regionX`, which `src/config.ts` does not define. They are bound to `config.siteMatrix`, `config.wikimedia` and `config.region`, whose elements have the shapes the `includes` calls expect.
- The front domain of `env.PROXY` is a field of `Env`, defaulting to `config.proxy`.
- `src/helpers.ts:122-123` builds its rewrite guard from the two arrays and from a `config.flags` that does not exist. The model's guard is the `siteRegex` of `src/config.ts:17`: the attribute contains a registry domain. The guard as written is modelled next to it (see Findings).

## Model

| member | source | states |
|---|---|---|
| Registry.Stem | src/config.ts:11 | a domain ending in `.org` is its stem followed by `.org` |
| Registry.RegionShape | src/config.ts:8 | every region code is two or more lower-case letters or hyphens, so it holds no `.` and no `/` and `split(".")[0]` recovers it |
| Registry.WwwNotRegion | src/config.ts:8 | neither `www` nor `m` is a region code |
| Registry.WBeginsNoRegion | src/config.ts:8 | no region code is a prefix of a text that begins with `w` followed by a letter other than `a`, `o` or `u` |
| Registry.WiNotRegion | src/config.ts:8 | no text that begins `wi`, the start of every family name, is a region code |
| Registry.UploadNotRegion | src/config.ts:8 | `upload`, the first label of the media host, is not a region code |
| Registry.ZhFirst | src/config.ts:8 | in list order `zh` is the first code that is a prefix of any text starting with `zh` (it comes before `zh-classical`, `zh-min-nan` and `zh-yue`) |
| Registry.EnFirst | src/config.ts:8 | in list order `en` is the first code that is a prefix of any text starting with `en` |
| Registry.FlattenMembers | src/config.ts:8 | a text is a region code exactly when one of the runs of the table holds it |
| Registry.FamilyDomainForm | src/config.ts:11 | every `siteMatrix` entry is one lower-case label and `.org`, with exactly one dot and no `or` in the label |
| Registry.SpecialDomainForm | src/config.ts:14 | every `wikimedia` entry is a label, `.wikimedia` and `.org`, with `org` only as the last label |
| Registry.FamilyNotSpecial | src/config.ts:11-14 | no `siteMatrix` entry is a `wikimedia` entry |
| Registry.BareWikimediaUnlisted | src/config.ts:11-17 | the bare `wikimedia.org` that `siteRegex` accepts is in neither table |
| Registry.OrgAtEndOnly | src/config.ts:11 | in `<g>.org` with no `or` in `g`, `org` occurs nowhere but as the last label |
| Registry.ReplaceTld | src/config.ts:11 | `replace("org", p)` on `<g>.org` gives `<g>.<p>` |
| Registry.ReplaceOrgInDomain | src/config.ts:11-14 | for every registry domain the first-occurrence `replace("org", p)` rewrites only the top-level label |
| Registry.SpecialHostLabels | src/config.ts:14 | a host `a.f.org` of two one-label names has the shape of a `wikimedia` entry only when `f` is `wikimedia` |
| Registry.LabelledFamilyNotSpecial | src/config.ts:11-14 | a one-label name in front of a `siteMatrix` domain never gives a `wikimedia` entry |
| Registry.FamilyWord | src/config.ts:17 | a family alternative of `siteRegex` followed by `.org` is a `siteMatrix` entry, and every entry is one |
| Registry.SubdomainWord | src/config.ts:17 | a subdomain alternative of `siteRegex` with `.wikimedia.org` is a `wikimedia` entry, and every entry is one |
| Registry.SiteRegexDomains | src/config.ts:17 | the words `siteRegex` matches are exactly `siteMatrix`, `wikimedia` and `wikimedia.org`, in any case |
| Registry.FamiliesLabelSiteMatrix | src/index.ts:30 | the family alternation of the earlier revision, each with `.org`, is `config.siteMatrix` entry by entry |
| Registry.SubdomainsLabelWikimedia | src/index.ts:32 | the subdomain alternation with `.wikimedia.org` is `config.wikimedia` entry by entry |
| Registry.DefaultProxyDistinctive | src/config.ts:3 | the default front domain `example.com` has a character (`x`) that occurs once in it and in no registry domain |
| Registry.RegistryLowerCase | src/config.ts:11-14 | every registry domain is its own lower case, so the `i` flag changes nothing for them |
| Text.FirstPrefix | src/index.ts:27 | the unanchored region alternation finds a listed code that the text starts with, or finds none when no code is a prefix |
| Text.FirstPrefixAppend | src/index.ts:27 | trying the alternatives `a + b` in order tries `a` first and falls back to `b` |
| Text.Lower | src/index.ts:24 | the `i` flag compares through ASCII lower case, character by character, keeping the length |
| Text.Split | src/helpers.ts:67 | `split` gives separator-free pieces that join back to the text |
| Text.SplitJoin | src/helpers.ts:103 | splitting a joined list of separator-free labels gives the labels back |
| Text.ReplaceFirstAt | src/helpers.ts:10 | `replace` with a string pattern splices the replacement in at the first occurrence only |
| Text.StripTrailingSlashes | src/index.ts:152 | `replace(/\/+$/, "")` removes exactly the slashes the text ends with |
| Urls.Locate | src/index.ts:103 | assigning `href` splits the text after `//` into host, path and rest at the first delimiters, and serialising gives the text back |
| Urls.ParseHref | src/helpers.ts:149 | parsing a serialised well-formed URL gives the URL back |
| Urls.ParseUrl | src/helpers.ts:149 | an accepted text is well-formed (a lower-case `http:` or `https:` protocol, a non-empty host, a path that is empty or starts with `/`) and serialises back to the very text it came from; unlike `new URL` it does not normalise (see Left out) |
| Helpers.ProxyOf | src/helpers.ts:9 | the front domain is `env.PROXY` when it is set, `config.proxy` otherwise |
| Helpers.SetPathname | src/helpers.ts:62 | a pathname assignment gives a path that starts with `/`, and a value that already starts with `/` is kept as it is |
| Helpers.ToUpstreamUrl | src/helpers.ts:47-81 | the device flag, scheme, query and fragment are kept; a region is set only for a listed code on a `siteMatrix` domain; without a region and a new host, the URL is unchanged |
| Helpers.ToProxiedUrl | src/helpers.ts:83-115 | the device flag, scheme, query and fragment are kept; when a region is found, it is a listed code and the path gets `/<region>` in front |
| Helpers.FamilyLabels | src/helpers.ts:103 | a `siteMatrix` domain splits into its family label and `org` |
| Helpers.SpecialLabels | src/helpers.ts:103 | a `wikimedia` domain splits into three labels, the middle one `wikimedia` |
| Helpers.RegionHostLabels | src/helpers.ts:74-76 | the region host splits into region, `m` (mobile only), family and `org` |
| Helpers.RegionHostNotSpecial | src/helpers.ts:88-92 | a region host is never a `wikimedia` entry, so the first case of `toProxiedUrl` cannot take it |
| Helpers.UpstreamOfSpecial | src/helpers.ts:53-57 | a `wikimedia` domain: host := domain, path unchanged, no region |
| Helpers.UpstreamOfWww | src/helpers.ts:59-64 | a `siteMatrix` domain with a path `/www/…`: host := `www.<domain>`, the leading `/www` dropped, no region |
| Helpers.UpstreamOfRegion | src/helpers.ts:66-78 | first path segment a region `r` on a `siteMatrix` domain: region := `r`, host `r.m.<domain>` on mobile and `r.<domain>` otherwise, `/r` removed and a following `/m` kept |
| Helpers.UpstreamOfUnlisted | src/helpers.ts:53-80 | a domain in neither table keeps host and path and gets no region |
| Helpers.UpstreamOfOtherSegment | src/helpers.ts:66-80 | a first segment that is not a region (and no `/www/` path) leaves the URL unchanged with no region |
| Helpers.WwwFirstSegment | src/helpers.ts:60 | a path whose first segment is `a` starts with `/www/` only when `a` is `www` |
| Helpers.ProxiedOfSpecial | src/helpers.ts:88-92 | a `wikimedia` host gets the front domain in place of its `org` and nothing else changes |
| Helpers.ProxiedOfWww | src/helpers.ts:94-100 | `www.<f>.org` becomes `<f>.<proxy>` with `/www` in front of the path |
| Helpers.ProxiedOfRegion | src/helpers.ts:102-112 | a region host (with or without `m`) becomes `<family>.<proxy>` with `/r` in front of the path and region := `r`, the `m` dropped |
| Helpers.ProxiedOfCodedHost | src/helpers.ts:102-112 | any host of three or four labels led by a region code and not in `wikimedia` (so never a `www.` host) becomes its second-to-last label on the front domain, with the first label in front of the path and as the region; the labels in between are dropped whatever they are, and the host need not be a registry domain |
| Helpers.RegionHostNotWww | src/helpers.ts:96 | a region host does not start with `www.` |
| Helpers.WwwFirstLabel | src/helpers.ts:96 | a host `a.…` with a one-label `a` starts with `www.` only when `a` is `www` |
| Helpers.ProxiedOfOther | src/helpers.ts:102-114 | a host that is not `wikimedia`, not `www.`-prefixed, and not 3 or 4 labels led by a region, is left unchanged with no region |
| Helpers.FrontHostForm | src/helpers.ts:97 | the front host of a registry domain is its stem, a dot and the front domain |
| Helpers.UnfrontHost | src/helpers.ts:10 | replacing a distinctive front domain by `org` in `<stem>.<proxy>` recovers the domain |
| Helpers.DomainOfFrontHost | src/helpers.ts:10 | with a distinctive front domain, `host.replace(proxy, "org")` inverts the front host of every registry domain |
| Helpers.RoundTripWww | src/helpers.ts:47-115 | `/www/…` on a family's front host maps upstream with no region and back to the same URL |
| Helpers.RoundTripRegion | src/helpers.ts:47-115 | `/r/…` on a family's front host maps upstream with region `r` and back to the same URL and region, on either device |
| Helpers.RoundTripSpecial | src/helpers.ts:47-115 | any path on a `wikimedia` front host maps upstream and back to the same URL |
| Helpers.RoundTripFromUpstream | src/helpers.ts:47-115 | a region page upstream maps to the front and back upstream to itself, with its region |
| Helpers.DetectMobileDeviceAsWritten | src/helpers.ts:33-45 | the loop as written returns on its first iteration: mobile exactly when a user agent is present and contains the first device name |
| Helpers.AsWrittenDetectsAndroidOnly | src/helpers.ts:40-43 | with the source's device list, detection as written is exactly "contains `android`" |
| Helpers.IphoneMissedAsWritten | src/helpers.ts:40-43 | an `iPhone` user agent is mobile by the intended test but not by the code as written |
| Helpers.MobileAgent | src/helpers.ts:39-43 | the test the device list evidently intends: a user agent is present and its lower case contains one of the six device names (no contract of its own; `DetectMobileDevice` is proved equivalent to it and `Index.IsMobileAgrees` ties `isMobile` to it) |
| Helpers.AndroidAgent | src/helpers.ts:41-43 | the test the loop performs as written: a user agent is present and its lower case contains `android` (no contract of its own; `AsWrittenDetectsAndroidOnly` proves the as-written loop computes it, and the handler uses it) |
| Helpers.DetectMobileDevice | src/helpers.ts:33-45 | the corrected loop: mobile exactly when a user agent is present and its lower case contains one of the six device names; no user agent gives false |
| Helpers.HandleRequest | src/helpers.ts:8-30 | a redirect happens exactly when `host.replace(proxy, "org")` is a `siteMatrix` domain and the path is exactly `/`, to the same URL with path `/www/` and status 301; otherwise the upstream URL is `toUpstreamUrl` of it, with the device flag of `detectMobileDevice` as written (the user agent contains `android`), and the `a href`, `img src` and `script src` rewriters apply exactly when the content type starts with `text/html` |
| Helpers.RootRedirected | src/helpers.ts:8-14 | with a distinctive front domain, the root of every family's front host is redirected |
| Helpers.Element.GetAttribute | src/helpers.ts:133 | `getAttribute` gives the value when the attribute is present and null when it is absent |
| Helpers.Element.SetAttribute | src/helpers.ts:147-149 | `setAttribute` changes that one attribute and leaves the others |
| Helpers.AttributeAction | src/helpers.ts:132-161 | the decision of `element` (no contract of its own; the branches are proved by `InPageLink`, `InPageNeedsYes`, `InPageRegionLink`, `RelativeLink` and `RelativeKept`): no attribute is kept; with `REWRITE_IN_PAGE_URL` exactly `yes` and a registry domain in the value, the value made absolute is parsed and replaced by the serialised `toProxiedUrl`, or is `Invalid` where parsing fails; otherwise a same-origin path gets `/<region>` in front when the page has a region, and anything else is kept |
| Helpers.Absolute | src/helpers.ts:144-146 | a `//`-prefixed value gets the page's protocol in front; any other value is used as it is |
| Helpers.AttributeRewriter.constructor | src/helpers.ts:125-130 | the rewriter keeps the attribute name, environment and page, and takes `env.PROXY`, else `config.proxy`, as its front domain |
| Helpers.AttributeRewriter.Element | src/helpers.ts:132-161 | the element's attributes change exactly as `AttributeAction` decides (a missing attribute, and values it keeps, leave the map as it was); the answer is false exactly when `AttributeAction` says `Invalid`: the guard passes and `ParseUrl` rejects the value, whose acceptance differs from that of `new URL` (see Left out) |
| Helpers.DomainInText | src/config.ts:17 | text holding a registry domain passes the guard |
| Helpers.GuardOnInfix | src/config.ts:17 | text with a registry domain anywhere inside passes the guard |
| Helpers.InPageLink | src/helpers.ts:141-149 | with rewriting switched on by `yes` and the guard holding, a link is replaced by the serialised `toProxiedUrl` of what it parses to (after the page protocol for `//…`) |
| Helpers.InPageNeedsYes | src/helpers.ts:141 | with the switch anything but exactly `yes`, only the relative branch can act |
| Helpers.InPageRegionLink | src/helpers.ts:141-149 | an in-page link to a region page upstream is rewritten to the family's front host, with `/r` in front of its path |
| Helpers.RegionLinkMatches | src/helpers.ts:141-146 | the serialised URL of a region page passes the guard and is not protocol-relative |
| Helpers.WebNotRelative | src/helpers.ts:144 | a serialised `http(s)` URL does not start with `//` |
| Helpers.RelativeLink | src/helpers.ts:150-159 | a `/x` value with `x` not starting `/`, on a page with region `r`, becomes `/r/x`, with no mobile marker |
| Helpers.RelativeKept | src/helpers.ts:150-160 | `//…`, `#…`, relative paths, `/` alone, and any value on a page without a region, are kept |
| Helpers.RelativeLinkRoundTrip | src/helpers.ts:156-158 | a relative link rewritten to `/r/x` on the front maps back upstream to `x` on the region host, with region `r` |
| Helpers.GuardAsWrittenLength | src/helpers.ts:122-123 | the guard as built needs at least 107 characters of text (the comma-joined `wikimedia` list and `.org`), more than any single link |
| Helpers.GuardAsWrittenMissesLink | src/helpers.ts:122-123 | `//en.wikipedia.org/` names a registry domain, yet the guard as built rejects it |
| Index.WebUrl.constructor | src/index.ts:45 | `new URL` holds the URL it is given |
| Index.WebUrl.SetHost | src/index.ts:125 | assigning `host` lower-cases it and changes nothing else |
| Index.WebUrl.SetPathname | src/index.ts:53-55 | assigning `pathname` changes only the path, with a leading `/` ensured |
| Index.WebUrl.SetHref | src/index.ts:103 | assigning `href` parses the whole URL again from its text |
| Index.Reparse | src/index.ts:122 | a reparsed URL keeps the protocol and has a path starting with `/`; its host is what follows the last `@` of the authority, in lower case |
| Index.AfterCredentials | src/index.ts:122 | the href setter's host is the longest `@`-free end of the authority, and an `@` precedes it whenever anything does |
| Index.CredentialsBeforeAt | src/index.ts:122 | everything up to the last `@` of the authority is taken for the username and password |
| Index.CredentialsDropped | src/index.ts:122 | reparsing `a@h`, with a plain host `h`, gives the root of `h` |
| Index.IsMobile | src/index.ts:82-88 | `isMobile`: a user agent is present and its lower case contains the lower case of one of the six names of the `gi` pattern (no contract of its own; `IsMobileAgrees` proves it equivalent to `Helpers.MobileAgent`) |
| Index.PathExempt | src/index.ts:47 | the negative lookahead of the path test, on the lower-cased text after `/`: it starts with a region code, `w/api.php` or `w/load.php` (the `.` matching any character but a line terminator), `api/`, `static/` or `/www/` (no contract of its own; `RegionPathNotRedirected`, `ApiPathPassesThrough` and `WwwNotExempt` state its cases) |
| Index.RedirectsPath | src/index.ts:47 | the path test: a leading `/`, no exempt text after it, and no line terminator to the end (no contract of its own; `RootRedirected`, `RegionPathNotRedirected` and `WwwPathRedirected` state its cases) |
| Index.RedirectsHost | src/index.ts:48 | the host test: not a `wikimedia` host, any one character but a line terminator, the front domain in any case, and no line terminator to the end (no contract of its own; `HostLookaheadRedundant`, `FamilyHostNotRedirected`, `GluedCharacterHostRedirected` and `DottedHostNotRedirected` state its cases) |
| Index.IsMobileAgrees | src/index.ts:82-88 | `isMobile` holds exactly when a user agent is present and, case-insensitively, contains Android, iPhone, iPad, iPod, SymbianOS or Windows Phone, the same test as the corrected `detectMobileDevice`; no user agent gives false |
| Index.HandleRequest | src/index.ts:44-61 | a redirect happens exactly when the path test or the host test passes; its location is the URL with `/zh/m` (mobile) or `/zh` in front of its path, status 301; otherwise the fetch target is `url2UpstreamUrl` of the URL |
| Index.RootRedirected | src/index.ts:47 | the bare root `/` passes the path test |
| Index.RegionPathNotRedirected | src/index.ts:47 | a path starting with a region code is never redirected, whatever follows |
| Index.CodeLowerCase | src/index.ts:27 | a region code is its own lower case |
| Index.WwwPathRedirected | src/index.ts:47-51 | every path starting `/www`, in any case and with no line terminator, is redirected, so the `www` branch of `url2UpstreamUrl` is never reached from the handler |
| Index.WwwNotExempt | src/index.ts:35 | nothing beginning `www` is exempt: `/www/` is exempt only after a second slash |
| Index.HostLookaheadRedundant | src/index.ts:48 | the `wikimedia` lookahead of the host test never decides anything: the test is "one character, the domain, no line terminator" |
| Index.FamilyHostNotRedirected | src/index.ts:48 | a family's front host is not caught by the host test |
| Index.GluedCharacterHostRedirected | src/index.ts:48 | any one character glued to the domain passes the host test |
| Index.DottedHostNotRedirected | src/index.ts:48 | neither a one-letter label with its dot nor the bare domain passes the host test |
| Index.FirstFamily | src/index.ts:98 | the family alternation finds a family that the host starts with (followed by the suffix), or none when no family fits |
| Index.FamiliesShape | src/index.ts:30 | the family names are dotless lower-case labels beginning `wi` |
| Index.FirstFamilyOf | src/index.ts:98 | the family alternation, tried in order, picks the family the text begins with |
| Index.UpstreamHostOfFamily | src/index.ts:98-100 | a host beginning `<family>.example.com` in any case has that prefix replaced by `<family>.org`, the rest kept |
| Index.UpstreamHostOfOther | src/index.ts:100 | any other host is left as it is |
| Index.UpstreamHostOfFrontHost | src/index.ts:98-100 | `<family>.example.com` goes to `<family>.org` |
| Index.PathRegion | src/index.ts:96 | a found region code lies within the path after a leading `/` |
| Index.UpstreamTarget | src/index.ts:90-128 | the URL `url2UpstreamUrl` leaves behind keeps its protocol; the `UpstreamOf…` lemmas state each branch (`www`, region with and without `/m`, plain) |
| Index.Url2UpstreamUrl | src/index.ts:90-128 | the URL passed in is overwritten with `UpstreamTarget` of its old value, and that same object is returned |
| Index.UpstreamTargetWww | src/index.ts:101-104 | a path `/www…` goes to `www.<upstream host>` followed by the rest of the path, reparsed |
| Index.UpstreamOfWwwTail | src/index.ts:101-104 | on a family front host, a path `/www` + `t` is reparsed from `www.<family>.org` + `t` |
| Index.UpstreamOfWwwPath | src/index.ts:101-104 | on a family front host, a path `/www` + `p` (no trailing slash required) gives host `www.<family>.org`, path `p`, and drops the query and fragment |
| Index.RegionPathNotWww | src/index.ts:95-96 | a path that begins with a region code is not a `/www` path, so the two branches are disjoint |
| Index.UpstreamTargetRegion | src/index.ts:107-123 | a path with region `c` is reparsed from the region host built for it |
| Index.RegionHostWithPathOf | src/index.ts:113-121 | `/c/m…` gives `c.m.<host>…` and `/c…` gives `c.<host>…` |
| Index.UpstreamOfRegionPath | src/index.ts:117-122 | on a family front host, `/c` + rest (no `/m`) is reparsed from `c.<family>.org` + rest |
| Index.UpstreamOfRegionPathAnyHost | src/index.ts:117-122 | on any host, `/c` + rest (no `/m`) is reparsed from `c.<upstream host>` + rest |
| Index.UpstreamOfMobileRegionPath | src/index.ts:113-116 | on a family front host, `/c/m` + rest is reparsed from `c.m.<family>.org` + rest |
| Index.UpstreamOfMobileRegionPathAnyHost | src/index.ts:113-116 | on any host, `/c/m` + rest is reparsed from `c.m.<upstream host>` + rest |
| Index.UpstreamOfPlainRegionPath | src/index.ts:117-122 | `/c/x` (no `/m`) gives host `c.<family>.org` and path `/x`, with query and fragment dropped |
| Index.UpstreamOfPlainMobileRegionPath | src/index.ts:113-116 | `/c/m/x` gives host `c.m.<family>.org` and path `/x`, with query and fragment dropped |
| Index.UpstreamOfPlainPath | src/index.ts:124-126 | with no `/www` and no region prefix, only the host changes, to `<family>.org`; path, query and fragment are kept |
| Index.ApiPathPassesThrough | src/index.ts:35 | `/w/api.php` on the `wikipedia` front host is redirected neither by its host nor by its path, and reaches `wikipedia.org` with its path, query and fragment |
| Index.ExampleCodes | src/index.ts:92-93 | `en` and `zh`, the codes of the examples in the comments, are region codes |
| Index.EnPathRegion | src/index.ts:96 | a path starting `/en` has region `en` |
| Index.ZhPathRegion | src/index.ts:96 | a path starting `/zh` has region `zh`, whatever follows |
| Index.UpstreamExampleEn | src/index.ts:92 | `/en/wiki/…` on a family front host goes to `en.<family>.org/wiki/…` |
| Index.UpstreamExampleZhMobile | src/index.ts:93 | `/zh/m/wiki/…` on a family front host goes to `zh.m.<family>.org/wiki/…` |
| Index.ZhYueTakenAsZh | src/index.ts:96 | `/zh-yue/x` resolves as region `zh`, so `-yue` stays glued to the end of the upstream host `zh.<family>.org-yue` |
| Index.UpstreamOfGluedRegionPath | src/index.ts:117-122 | lower-case letters and hyphens that follow the matched code with no slash are glued onto the end of the upstream host (other glued text is stated by `AtHandsOverHost` or left out) |
| Index.GluedSuffix | src/index.ts:122 | reparsing a plain host followed by lower-case letters and hyphens keeps them in the host |
| Index.MarsTakenAsMobile | src/index.ts:96 | `/en/m` followed by lower-case letters and hyphens and no slash (as in `/en/mars`) is taken as the mobile marker, and the letters join the host |
| Index.AtHandsOverHost | src/index.ts:108-122 | `/en/m@<h>` on a family front host is not redirected, and the href setter reads the region host as a username, so the upstream host is any plain host `h`, with path `/` |
| Index.EvilComFetched | src/index.ts:113-122 | for `https://wikipedia.example.com/en/m@evil.com` the upstream host is `evil.com`, which is neither `wikipedia.org` nor a subdomain of it |
| Index.SegmentRegion | src/index.ts:96 | the region pattern closed by `(?=\/|$)`: a found code is in the list, begins the text and is followed by a new segment, with `/m` only when a whole `/m` segment follows; none is found only when no listed prefix is followed by a new segment |
| Index.SegmentUpstreamTarget | src/index.ts:90-128 | the corrected mapping keeps the protocol; `SegmentTargetStaysOnHost` states where it fetches from |
| Index.SegmentSplit | src/index.ts:101-122 | under the closed patterns, the name put in front of the mapped host holds no delimiter and no `@`, and the path after it starts a new segment |
| Index.SegmentTargetStaysOnHost | src/index.ts:90-128 | with `www`, the code and `m` matched only as whole segments, every front URL whose host has no delimiter or `@` is fetched from its mapped host or a subdomain of it |
| Index.ProxiedTarget | src/index.ts:130-157 | the URL `upstreamUrl2Url` leaves behind keeps its protocol, query and fragment, and a path it changes starts with `/`; the `ProxiedOf…` lemmas state each branch (`www` host, region host with and without `m`, bare family host), and `ProxiedOfUnmatched` the last one for every host that no family shape begins |
| Index.UpstreamUrl2Url | src/index.ts:130-157 | the URL passed in is overwritten with `ProxiedTarget` of its old value, and that same object is returned |
| Index.MatchWithCodesAt | src/index.ts:136 | on `a.y` with a dotless first label `a`, the region group matches only with the code `Lower(a)` |
| Index.FamilyAtOf | src/index.ts:136 | a family followed by `.org` is found at the start of a host |
| Index.TryCodeMobileAt | src/index.ts:136 | code, `.m.` and a family host match with code, `m` and family captured |
| Index.TryCodeDesktopAt | src/index.ts:136 | code, `.` and a family host match with code and family captured and no `m` |
| Index.WwwFamilyOf | src/index.ts:135 | `www.<f>.org…` is recognised as the `www` host of family `f` |
| Index.RegionHostNotWwwHost | src/index.ts:135 | a host whose first label is a region code is not a `www` host |
| Index.MobileRegionHostNotWwwHost | src/index.ts:135 | a host `c.m.…` led by a region code is not a `www` host |
| Index.NotFamilyText | src/index.ts:135-136 | a host that does not start with `w` has no family at its start and is not a `www` host |
| Index.RegionExec | src/index.ts:136 | `regionRegex.exec(host)`: the region group with the first listed code that fits, else the family alone, else no match (no contract of its own; `RegionExecDesktop`, `RegionExecMobile`, `RegionExecFamily` and `RegionExecNone` state its cases) |
| Index.RegionExecDesktop | src/index.ts:136 | the region pattern on `c.<f>.org…` captures code `c`, no `m`, family `f` |
| Index.RegionExecMobile | src/index.ts:136 | the region pattern on `c.m.<f>.org…` captures code `c`, `m`, family `f` |
| Index.RegionExecFamily | src/index.ts:136 | the region pattern on a bare `<f>.org…` captures the family alone |
| Index.RegionExecNone | src/index.ts:136 | a host whose first label is neither a region code nor starts with `w` matches neither pattern |
| Index.ProxiedOfWwwHost | src/index.ts:140-143 | `www.<f>.org` goes to host `<f>.example.com` with `/www` in front of the path |
| Index.ProxiedTargetCoded | src/index.ts:148-154 | a matched region host goes to the family glued to the domain, the captures in front of the path |
| Index.CodePrefix | src/index.ts:152 | a prefix `/<c>/<x>` whose last character is not `/` loses nothing to the slash stripping |
| Index.ProxiedOfRegionHost | src/index.ts:148-154 | `c.<f>.org` goes to host `<f>example.com` (no dot) with `/c/undefined` in front of the path |
| Index.ProxiedOfMobileRegionHost | src/index.ts:148-154 | `c.m.<f>.org` goes to host `<f>example.com` with `/c/m` in front of the path |
| Index.ProxiedOfFamilyHost | src/index.ts:148-151 | a bare `<f>.org` changes only its host, to `<f>example.com` |
| Index.WwwFamilyShape | src/index.ts:135 | when the `www` test succeeds, the host starts, in lower case, with `www.<f>.org` for a family `f` |
| Index.RegionExecShape | src/index.ts:136 | when the region pattern finds a match, the host starts, in lower case, with `<f>.org`, `<c>.<f>.org` or `<c>.m.<f>.org` for a family `f` and a region code `c` |
| Index.MatchWithCodesShape | src/index.ts:136 | whichever region code the alternation settles on, the host has that code's shape |
| Index.TryCodeShape | src/index.ts:136 | the pattern with one region code that succeeds has found `<c>.<f>.org` or `<c>.m.<f>.org` |
| Index.TryCodeFinds | src/index.ts:136 | a region code followed by `.` or `.m.` and a family's `.org` host is taken by that code's pattern |
| Index.MatchWithCodesFinds | src/index.ts:136 | when some region code's pattern takes the host, the alternation takes it |
| Index.PatternsFindShape | src/index.ts:135-136 | every host that one of the four shapes begins is found by the `www` test or by the region pattern |
| Index.HostPatternsExact | src/index.ts:135-148 | the `www` test or the region pattern succeeds on a host exactly when `www.<f>.org`, `<f>.org`, `<c>.<f>.org` or `<c>.m.<f>.org` begins it in lower case (both directions) |
| Index.ProxiedOfUnmatched | src/index.ts:140-156 | any host that none of those shapes begins, such as `en.google.com`, `www.google.com` or `wa.example.net`, is returned with nothing changed |
| Index.ProxiedOfUncodedLabel | src/index.ts:148-156 | a host whose first label is neither a region code nor starts with `w` is returned with nothing changed |
| Index.UploadHostKept | src/index.ts:147 | `upload.wikimedia.org` is returned with nothing changed |
| Index.ProxiedExampleEn | src/index.ts:132 | `en.<f>.org` comes back on the glued host under `/en/undefined` |
| Index.ProxiedExampleZhMobile | src/index.ts:133 | `zh.m.<f>.org` comes back on the glued host under `/zh/m` |
| Index.WwwRoundTrip | src/index.ts:90-157 | `/www/…` on a family front host goes to `www.<f>.org/…` and back to the same URL, less its query and fragment |
| Index.RegionRoundTrip | src/index.ts:90-157 | `/c/…` goes to `c.<f>.org/…` and comes back on the glued host under `/c/undefined/…`, less query and fragment |
| Index.MobileRegionRoundTrip | src/index.ts:90-157 | `/c/m/…` goes to `c.m.<f>.org/…` and comes back with the same path on the glued host, less query and fragment |

## Left out

- Cloudflare Workers plumbing: the default export, `fetch`, `Response.redirect`, and the registration and `transform` of `HTMLRewriter`. These are asynchronous network I/O. `Helpers.HandleRequest` returns the redirect or the upstream URL, with the list of rewriters to apply; `Index.HandleRequest` returns the redirect or the fetch target.
- The WHATWG URL standard:
  - host normalisation other than ASCII lower case, which only `Index.Reparse` and `Index.WebUrl.SetHost` apply;
  - percent-encoding and IDNA;
  - ports, and credentials except that `Index.Reparse` drops everything up to the last `@` of the authority;
  - the failures of the href setter at src/index.ts:103 and :122 (an invalid port, an empty host, a forbidden host character), on which the source throws;
  - schemes other than `http:` and `https:`.
  
  A URL is `{scheme, host, path, rest}`.
- The exception `new URL` throws on a value that is not a URL (src/helpers.ts:149). `Helpers.AttributeRewriter.Element` answers `false` where `Urls.ParseUrl` rejects the value, and leaves the element unchanged.
- Unicode case folding: `toLowerCase` and the `i` flag are modelled on ASCII letters only.
- A general regular-expression engine. Each pattern is the string function it computes. Inside host names, the dots of the patterns in src/index.ts are read as literal dots.
- `$`-patterns in `replace` strings are not interpreted: the captures are spliced in directly.
- The logging `AttributeRewriter` of src/index.ts:159-178. It is never registered, since its use is commented out.
- `config.cf` (src/config.ts:20-33): platform caching and minification settings with no logic.
- src/types.ts: interface declarations only. `ExtendedUrl` is a datatype, and `Env` holds the front domain and the in-page rewrite switch.
- Helpers.DetectMobileDeviceAsWritten: takes its device list as a parameter. With the fixed six-name list, the verifier would see the `return false` after the loop as unreachable. `Helpers.AsWrittenDetectsAndroidOnly` applies it to the source's list.
- Helpers.ToUpstreamUrl: its own contract states only what every case shares. Each case is stated exactly by the `UpstreamOf…` lemmas.
- Helpers.ToProxiedUrl: its own contract states only what every case shares. Each case is stated exactly by the `ProxiedOf…` lemmas. The region case is stated for every host it covers by `ProxiedOfCodedHost`, and for registry region hosts by `ProxiedOfRegion`.
- Urls.ParseUrl: accepts only lower-case `http:` and `https:`, keeps the host's letter case, and keeps an empty path empty. `new URL` accepts any case of the protocol, lower-cases the host, and gives `/` for an empty path. So for in-page links the model differs from the source in three ways. `https://EN.wikipedia.org/x` is kept as it is, where the source maps it to `https://wikipedia.<proxy>/en/x`. `https://en.wikipedia.org` becomes `…/en`, where the source gives `…/en/`. `HTTPS://en.wikipedia.org/x` makes `AttributeRewriter.Element` answer `false`, where the source rewrites it. Conversely, `ParseUrl` does not check which characters a host may hold, so it accepts some hosts on which `new URL` throws.
- Index.HandleRequest: the front domain is the fixed `example.com` of src/index.ts:14. The revision reads no environment.
- Index lemmas about one family are stated for every family `f`, not only for `wikipedia`. The examples in the source comments are instances of them.
- A path `/static/…` begins with the region code `st` and is exempt for that reason before its own alternative is tried. This changes no outcome and is not stated as a lemma.

## Findings

| source | as written | input that shows it | evidently intended | confidence | as-written member | corrected member |
|---|---|---|---|---|---|---|
| src/helpers.ts:41-43 | the `for` loop returns on its first iteration, so only `android` is ever tested | user agent `iPhone` gives false | mobile when the user agent contains any of the six device names | not executed | Helpers.DetectMobileDeviceAsWritten, Helpers.AsWrittenDetectsAndroidOnly, Helpers.IphoneMissedAsWritten | Helpers.DetectMobileDevice |
| src/helpers.ts:122-123 | the guard interpolates the two arrays, which join with commas, so each alternative is a whole comma-joined list, and `config.flags` does not exist | attribute `//en.wikipedia.org/` fails the guard, so the in-page link is never rewritten | the attribute names a registry domain, as `siteRegex` at src/config.ts:17 spells it | not executed | Helpers.GuardAsWrittenLength, Helpers.GuardAsWrittenMissesLink | Helpers.InPageLink |
| src/index.ts:96-122 | the region pattern does not require the code, or `/m`, to end a path segment, and whatever follows the match is spliced into the text the href setter parses as host and path | `https://wikipedia.example.com/en/m@evil.com` is not redirected, and its upstream URL is `https://en.m.wikipedia.org@evil.com/`, whose host is `evil.com` | the request is fetched from the family's `.org` host or one of its subdomains, whatever the path holds | not executed | Index.AtHandsOverHost, Index.EvilComFetched | Index.SegmentUpstreamTarget, Index.SegmentTargetStaysOnHost |
