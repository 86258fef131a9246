/**
 * The registry of the proxy (src/config.ts): the front domain, the redirect
 * status, the region codes, the project families that have one subdomain per
 * region (`siteMatrix`), the global projects without one (`wikimedia`) and the
 * `siteRegex` pattern naming all of them. Everything here is a constant; the
 * lemmas state the shapes of the tables that the URL mappings rely on.
 */
module Registry {
  import opened Wrappers
  import opened Text

  /** The front domain the proxy answers on, unless the environment overrides it. */
  const Proxy: string := "example.com"

  /** The status code of the canonicalising redirect. */
  const RedirectStatus: int := 301

  // ---------------------------------------------------------------- regions

  predicate CodeChar(c: char) {
    'a' <= c <= 'z' || c == '-'
  }

  /** A region code as the table spells it: two or more lower-case letters and hyphens. */
  predicate CodeShaped(s: string) {
    |s| >= 2 && forall k :: 0 <= k < |s| ==> CodeChar(s[k])
  }

  type Code = s: string | CodeShaped(s) witness "aa"

  /** A run of consecutive codes of the table, all beginning with `initial`. */
  datatype RegionRun = RegionRun(initial: char, codes: seq<Code>)

  type Run = r: RegionRun | forall i :: 0 <= i < |r.codes| ==> r.codes[i][0] == r.initial
    witness RegionRun('a', [])

  // The region table in its published order, cut into runs of at most twelve
  // codes that share their initial letter.
  const RegionsA1: Run := RegionRun('a', ["aa", "ab", "ace", "ady", "af", "ak", "als", "alt", "am"])
  const RegionsA2: Run := RegionRun('a', ["ami", "an", "ang", "ar", "arc", "ary", "arz", "as", "ast"])
  const RegionsA3: Run := RegionRun('a', ["atj", "av", "avk", "awa", "ay", "az", "azb"])
  const RegionsB1: Run := RegionRun('b', ["ba", "ban", "bar", "bat-smg", "bcl", "be", "be-tarask", "be-x-old", "bg", "bh", "bi"])
  const RegionsB2: Run := RegionRun('b', ["bjn", "blk", "bm", "bn", "bo", "bpy", "br", "bs", "bug", "bxr"])
  const RegionsC1: Run := RegionRun('c', ["ca", "cbk-zam", "cdo", "ce", "ceb", "ch", "cho", "chr", "chy"])
  const RegionsC2: Run := RegionRun('c', ["ckb", "co", "cr", "crh", "cs", "csb", "cu", "cv", "cy"])
  const RegionsD: Run := RegionRun('d', ["da", "dag", "de", "din", "diq", "dsb", "dty", "dv", "dz"])
  const RegionsE: Run := RegionRun('e', ["ee", "el", "eml", "en", "eo", "es", "et", "eu", "ext"])
  const RegionsF: Run := RegionRun('f', ["fa", "ff", "fi", "fiu-vro", "fj", "fo", "fr", "frp", "frr", "fur", "fy"])
  const RegionsG1: Run := RegionRun('g', ["ga", "gag", "gan", "gcr", "gd", "gl", "glk"])
  const RegionsG2: Run := RegionRun('g', ["gn", "gom", "gor", "got", "gu", "guw", "gv"])
  const RegionsH1: Run := RegionRun('h', ["ha", "hak", "haw", "he", "hi", "hif", "ho"])
  const RegionsH2: Run := RegionRun('h', ["hr", "hsb", "ht", "hu", "hy", "hyw", "hz"])
  const RegionsI: Run := RegionRun('i', ["ia", "id", "ie", "ig", "ii", "ik", "ilo", "inh", "io", "is", "it", "iu"])
  const RegionsJ: Run := RegionRun('j', ["ja", "jam", "jbo", "jv"])
  const RegionsK1: Run := RegionRun('k', ["ka", "kaa", "kab", "kbd", "kbp", "kcg", "kg", "ki", "kj", "kk", "kl", "km"])
  const RegionsK2: Run := RegionRun('k', ["kn", "ko", "koi", "kr", "krc", "ks", "ksh", "ku", "kv", "kw", "ky"])
  const RegionsL1: Run := RegionRun('l', ["la", "lad", "lb", "lbe", "lez", "lfn", "lg", "li", "lij"])
  const RegionsL2: Run := RegionRun('l', ["lld", "lmo", "ln", "lo", "lrc", "lt", "ltg", "lv"])
  const RegionsM1: Run := RegionRun('m', ["mad", "mai", "map-bms", "mdf", "mg", "mh", "mhr", "mi", "min", "mk", "ml", "mn"])
  const RegionsM2: Run := RegionRun('m', ["mni", "mnw", "mo", "mr", "mrj", "ms", "mt", "mus", "mwl", "my", "myv", "mzn"])
  const RegionsN1: Run := RegionRun('n', ["na", "nah", "nap", "nds", "nds-nl", "ne", "new", "ng", "nia"])
  const RegionsN2: Run := RegionRun('n', ["nl", "nn", "no", "nov", "nqo", "nrm", "nso", "nv", "ny"])
  const RegionsO: Run := RegionRun('o', ["oc", "olo", "om", "or", "os"])
  const RegionsP1: Run := RegionRun('p', ["pa", "pag", "pam", "pap", "pcd", "pcm", "pdc", "pfl", "pi"])
  const RegionsP2: Run := RegionRun('p', ["pih", "pl", "pms", "pnb", "pnt", "ps", "pt", "pwn"])
  const RegionsQ: Run := RegionRun('q', ["qu"])
  const RegionsR: Run := RegionRun('r', ["rm", "rmy", "rn", "ro", "roa-rup", "roa-tara", "ru", "rue", "rw"])
  const RegionsS1: Run := RegionRun('s', ["sa", "sah", "sat", "sc", "scn", "sco", "sd", "se", "sg", "sh", "shi"])
  const RegionsS2: Run := RegionRun('s', ["shn", "shy", "si", "simple", "sk", "skr", "sl", "sm", "smn", "sn", "so"])
  const RegionsS3: Run := RegionRun('s', ["sq", "sr", "srn", "ss", "st", "stq", "su", "sv", "sw", "szl", "szy"])
  const RegionsT1: Run := RegionRun('t', ["ta", "tay", "tcy", "te", "tet", "tg", "th", "ti", "tk", "tl", "tn"])
  const RegionsT2: Run := RegionRun('t', ["to", "tpi", "tr", "trv", "ts", "tt", "tum", "tw", "ty", "tyv"])
  const RegionsU: Run := RegionRun('u', ["udm", "ug", "uk", "ur", "uz"])
  const RegionsV: Run := RegionRun('v', ["ve", "vec", "vep", "vi", "vls", "vo"])
  const RegionsW: Run := RegionRun('w', ["wa", "war", "wo", "wuu"])
  const RegionsX: Run := RegionRun('x', ["xal", "xh", "xmf"])
  const RegionsY: Run := RegionRun('y', ["yi", "yo", "yue"])
  const RegionsZ: Run := RegionRun('z', ["za", "zea", "zh", "zh-classical", "zh-min-nan", "zh-yue", "zu"])

  /** The runs of the region table, in order. */
  const RegionTable: seq<Run> := [
    RegionsA1, RegionsA2, RegionsA3, RegionsB1, RegionsB2, RegionsC1, RegionsC2, RegionsD, RegionsE,
    RegionsF, RegionsG1, RegionsG2, RegionsH1, RegionsH2, RegionsI, RegionsJ, RegionsK1, RegionsK2,
    RegionsL1, RegionsL2, RegionsM1, RegionsM2, RegionsN1, RegionsN2, RegionsO, RegionsP1,
    RegionsP2, RegionsQ, RegionsR, RegionsS1, RegionsS2, RegionsS3, RegionsT1, RegionsT2, RegionsU,
    RegionsV, RegionsW, RegionsX, RegionsY, RegionsZ]

  /** The initial letter of each run of `RegionTable`, in order. */
  const RunInitials: string := "aaabbccdefgghhijkkllmmnnoppqrsssttuvwxyz"

  /** The codes of the runs, in order. */
  function Flatten(t: seq<Run>): seq<Code> {
    if |t| == 0 then [] else t[0].codes + Flatten(t[1..])
  }

  /** `config.region`: the region codes in their published order. */
  const Regions: seq<Code> := Flatten(RegionTable)

  /** `config.region.includes(s)`. */
  predicate IsRegion(s: string) {
    s in Regions
  }

  /** A code is among the runs exactly when some run holds it. */
  lemma {:induction false} FlattenMembers(t: seq<Run>, s: string)
    ensures s in Flatten(t) <==> exists i :: 0 <= i < |t| && s in t[i].codes
  {
    if |t| > 0 {
      FlattenMembers(t[1..], s);
      if s in Flatten(t) && s !in t[0].codes {
        var i :| 0 <= i < |t[1..]| && s in t[1..][i].codes;
        assert s in t[i + 1].codes;
      }
      if exists i :: 0 <= i < |t| && s in t[i].codes {
        var i :| 0 <= i < |t| && s in t[i].codes;
        if i > 0 {
          assert s in t[1..][i - 1].codes;
        }
      }
    }
  }

  /** The runs of the table begin with the letters of `RunInitials`. */
  lemma TableInitials()
    ensures |RegionTable| == |RunInitials|
    ensures forall i :: 0 <= i < |RegionTable| ==> RegionTable[i].initial == RunInitials[i]
  {
  }

  /** The codes beginning with `w` are the run `wa`, `war`, `wo`, `wuu`. */
  lemma RunW()
    ensures forall i :: 0 <= i < |RegionTable| && RegionTable[i].initial == 'w' ==> i == 36
    ensures RegionTable[36] == RegionsW
  {
    TableInitials();
  }

  /** The codes beginning with `z` are the last run. */
  lemma RunZ()
    ensures forall i :: 0 <= i < |RegionTable| && RegionTable[i].initial == 'z' ==> i == 39
    ensures RegionTable[39] == RegionsZ
  {
    TableInitials();
  }

  /** A code that begins with the initial of exactly one run is in that run. */
  lemma OnlyRunWithInitial(t: seq<Run>, k: int, s: string)
    requires 0 <= k < |t| && |s| > 0
    requires forall i :: 0 <= i < |t| && t[i].initial == s[0] ==> i == k
    requires s in Flatten(t)
    ensures s in t[k].codes
  {
    FlattenMembers(t, s);
    var i :| 0 <= i < |t| && s in t[i].codes;
    var j :| 0 <= j < |t[i].codes| && t[i].codes[j] == s;
  }

  /** A text missing from the one run of the table that has its initial is no region code. */
  lemma OutsideItsRun(k: int, s: string)
    requires 0 <= k < |RegionTable| && |s| > 0
    requires forall i :: 0 <= i < |RegionTable| && RegionTable[i].initial == s[0] ==> i == k
    requires s !in RegionTable[k].codes
    ensures !IsRegion(s)
  {
    if IsRegion(s) {
      OnlyRunWithInitial(RegionTable, k, s);
    }
  }

  /** No code of runs whose initial differs from that of `s` is a prefix of `s`. */
  lemma {:induction false} NoRunPrefix(t: seq<Run>, s: string)
    requires |s| > 0
    requires forall i :: 0 <= i < |t| ==> t[i].initial != s[0]
    ensures FirstPrefix(Flatten(t), s).None?
  {
    if |t| > 0 {
      NoRunPrefix(t[1..], s);
      FirstPrefixAppend(t[0].codes, Flatten(t[1..]), s);
      forall c | c in t[0].codes
        ensures !StartsWith(s, c)
      {
        var j :| 0 <= j < |t[0].codes| && t[0].codes[j] == c;
      }
    }
  }

  /** Trying all codes in order finds the same code as trying only the run of the initial of `s`. */
  lemma {:induction false} FirstPrefixInRun(t: seq<Run>, k: int, s: string)
    requires 0 <= k < |t| && |s| > 0
    requires forall i :: 0 <= i < |t| && t[i].initial == s[0] ==> i == k
    ensures FirstPrefix(Flatten(t), s) == FirstPrefix(t[k].codes, s)
  {
    FirstPrefixAppend(t[0].codes, Flatten(t[1..]), s);
    if k == 0 {
      NoRunPrefix(t[1..], s);
    } else {
      NoRunPrefix(t[..1], s);
      assert Flatten(t[..1]) == t[0].codes;
      FirstPrefixInRun(t[1..], k - 1, s);
    }
  }

  /** Every region code is lower-case letters and hyphens, so it holds no `.` and no `/`. */
  lemma RegionShape(r: string)
    requires IsRegion(r)
    ensures CodeShaped(r) && '.' !in r && '/' !in r
  {
  }

  /** Neither `www` nor `m` is a region code. */
  lemma WwwNotRegion()
    ensures !IsRegion("www") && !IsRegion("m")
  {
    RunW();
    assert "www" !in RegionsW.codes;
    OutsideItsRun(36, "www");
  }

  /**
   * No region code is a prefix of a text that starts with `w` and then anything
   * but `a`, `o` or `u`: such as `www` or `w/`.
   */
  lemma WBeginsNoRegion(s: string)
    requires |s| >= 2 && s[0] == 'w' && s[1] != 'a' && s[1] != 'o' && s[1] != 'u'
    ensures FirstPrefix(Regions, s).None?
  {
    RunW();
    FirstPrefixInRun(RegionTable, 36, s);
    WBeginsNoCodeOfRunW(s);
  }

  lemma WBeginsNoCodeOfRunW(s: string)
    requires |s| >= 2 && s[0] == 'w' && s[1] != 'a' && s[1] != 'o' && s[1] != 'u'
    ensures FirstPrefix(RegionsW.codes, s).None?
  {
  }

  /** No region code begins with `wi`, the start of every family name. */
  lemma WiNotRegion(s: string)
    requires |s| >= 2 && s[0] == 'w' && s[1] == 'i'
    ensures !IsRegion(s)
  {
    RunW();
    assert s !in RegionsW.codes;
    OutsideItsRun(36, s);
  }

  /** The codes beginning with `u` are one run. */
  lemma RunU()
    ensures forall i :: 0 <= i < |RegionTable| && RegionTable[i].initial == 'u' ==> i == 34
    ensures RegionTable[34] == RegionsU
  {
    TableInitials();
  }

  /** `upload`, the first label of the media host, is not a region code. */
  lemma UploadNotRegion()
    ensures !IsRegion("upload")
  {
    RunU();
    assert "upload" !in RegionsU.codes;
    OutsideItsRun(34, "upload");
  }

  /** The codes beginning with `e` are one run. */
  lemma RunE()
    ensures forall i :: 0 <= i < |RegionTable| && RegionTable[i].initial == 'e' ==> i == 8
    ensures RegionTable[8] == RegionsE
  {
    TableInitials();
  }

  /**
   * In list order `zh` is the first code that is a prefix of any text starting
   * with `zh`: `zh-classical`, `zh-min-nan` and `zh-yue` are never the first.
   */
  lemma ZhFirst(s: string)
    requires StartsWith(s, "zh")
    ensures FirstPrefix(Regions, s) == Some("zh")
  {
    RunZ();
    FirstPrefixInRun(RegionTable, 39, s);
    ZhFirstInRunZ(s);
  }

  lemma ZhFirstInRunZ(s: string)
    requires StartsWith(s, "zh")
    ensures FirstPrefix(RegionsZ.codes, s) == Some("zh")
  {
    var cs := RegionsZ.codes;
    assert s[1] == 'h';
    assert !StartsWith(s, cs[0]) && !StartsWith(s, cs[1]) && StartsWith(s, cs[2]);
    assert FirstPrefix(cs, s) == FirstPrefix(cs[1..], s) == FirstPrefix(cs[2..], s);
  }

  /** In list order `en` is the first code that is a prefix of any text starting with `en`. */
  lemma EnFirst(s: string)
    requires StartsWith(s, "en")
    ensures FirstPrefix(Regions, s) == Some("en")
  {
    RunE();
    FirstPrefixInRun(RegionTable, 8, s);
    EnFirstInRunE(s);
  }

  lemma EnFirstInRunE(s: string)
    requires StartsWith(s, "en")
    ensures FirstPrefix(RegionsE.codes, s) == Some("en")
  {
    var cs := RegionsE.codes;
    assert s[1] == 'n';
    assert !StartsWith(s, cs[0]) && !StartsWith(s, cs[1]) && !StartsWith(s, cs[2]) && StartsWith(s, cs[3]);
    assert FirstPrefix(cs, s) == FirstPrefix(cs[1..], s) == FirstPrefix(cs[2..], s) == FirstPrefix(cs[3..], s);
  }

  // ---------------------------------------------------------------- domains

  predicate Letter(c: char) {
    'a' <= c <= 'z'
  }

  /** A host label of the registry: one or more lower-case letters. */
  predicate LabelShaped(s: string) {
    |s| >= 1 && forall k :: 0 <= k < |s| ==> Letter(s[k])
  }

  /** No `o` in `s` is followed by `r`; in particular `org` does not occur in `s`. */
  predicate NoOr(s: string) {
    forall k :: 0 <= k && k + 1 < |s| ==> !(s[k] == 'o' && s[k + 1] == 'r')
  }

  /** `d` ends in `.org`. */
  predicate OrgTld(d: string) {
    |d| >= 4 && d[|d| - 4] == '.' && d[|d| - 3] == 'o' && d[|d| - 2] == 'r' && d[|d| - 1] == 'g'
  }

  /** `d` without its `.org`. */
  function Stem(d: string): (r: string)
    requires OrgTld(d)
    ensures d == r + ".org"
  {
    d[..|d| - 4]
  }

  /** A `siteMatrix` entry: `<label>.org`, with `org` nowhere in the label. */
  predicate FamilyDomainShaped(d: string) {
    OrgTld(d) && LabelShaped(d[..|d| - 4]) && NoOr(d[..|d| - 4])
  }

  /** A `wikimedia` entry: `<label>.wikimedia.org`, with `org` nowhere before the last label. */
  predicate SpecialDomainShaped(d: string) {
    && OrgTld(d) && |d| >= 15 && d[|d| - 14..|d| - 4] == ".wikimedia"
    && LabelShaped(d[..|d| - 14]) && NoOr(d[..|d| - 14])
  }

  type FamilyDomain = d: string | FamilyDomainShaped(d) witness "wikipedia.org"

  type SpecialDomain = d: string | SpecialDomainShaped(d) witness "meta.wikimedia.org"

  // `siteMatrix` and `wikimedia` in their published order, in parts.
  const SiteMatrixA: seq<FamilyDomain> := ["wikipedia.org", "wiktionary.org", "wikibooks.org", "wikinews.org"]
  const SiteMatrixB: seq<FamilyDomain> := ["wikiquote.org", "wikisource.org", "wikiversity.org", "wikivoyage.org"]
  const WikimediaA: seq<SpecialDomain> := ["commons.wikimedia.org"]
  const WikimediaB: seq<SpecialDomain> := ["meta.wikimedia.org"]
  const WikimediaC: seq<SpecialDomain> := ["species.wikimedia.org"]
  const WikimediaD: seq<SpecialDomain> := ["upload.wikimedia.org"]
  const WikimediaE: seq<SpecialDomain> := ["login.wikimedia.org"]

  /** `config.siteMatrix`: the projects with one subdomain per region. */
  const SiteMatrix: seq<FamilyDomain> := SiteMatrixA + SiteMatrixB

  /** `config.wikimedia`: the projects with a single global host. */
  const Wikimedia: seq<SpecialDomain> := WikimediaA + WikimediaB + WikimediaC + WikimediaD + WikimediaE

  /** The project-family alternation spelled out in `siteRegex`. */
  const Families: seq<string> := [
    "wikipedia", "wiktionary", "wikibooks", "wikinews",
    "wikiquote", "wikisource", "wikiversity", "wikivoyage"]

  /** The optional subdomain alternation in front of `wikimedia` in `siteRegex`. */
  const Subdomains: seq<string> := ["commons", "meta", "species", "upload", "login"]

  /** Every `siteMatrix` entry is one label and `.org`: it has exactly one dot. */
  lemma FamilyDomainForm(d: FamilyDomain)
    ensures OrgTld(d) && LabelShaped(Stem(d)) && NoOr(Stem(d)) && '.' !in Stem(d)
  {
  }

  /** A label boundary that does not start with `r` keeps `NoOr`. */
  lemma NoOrConcat(a: string, b: string)
    requires NoOr(a) && NoOr(b) && (|b| > 0 ==> b[0] != 'r')
    ensures NoOr(a + b)
  {
    forall k | 0 <= k && k + 1 < |a + b|
      ensures !((a + b)[k] == 'o' && (a + b)[k + 1] == 'r')
    {
      if k + 1 < |a| {
        assert (a + b)[k + 1] == a[k + 1];
      } else if k + 1 == |a| {
        assert (a + b)[k + 1] == b[0];
      } else {
        assert (a + b)[k] == b[k - |a|];
      }
    }
  }

  /** Every `wikimedia` entry is a label, `.wikimedia` and `.org`; `org` occurs only at its end. */
  lemma SpecialDomainForm(d: SpecialDomain)
    ensures OrgTld(d) && NoOr(Stem(d))
    ensures |d| >= 15 && LabelShaped(d[..|d| - 14]) && d == d[..|d| - 14] + "." + "wikimedia" + "." + "org"
    ensures '.' in Stem(d)
  {
    var sub := d[..|d| - 14];
    assert d == sub + d[|d| - 14..|d| - 4] + d[|d| - 4..];
    assert Stem(d) == sub + ".wikimedia";
    assert Stem(d)[|sub|] == '.';
    NoOrConcat(sub, ".wikimedia");
  }

  /** The two tables are disjoint: a `wikimedia` entry has a dot before its last label, a `siteMatrix` entry has none. */
  lemma FamilyNotSpecial(d: string)
    requires d in SiteMatrix
    ensures d !in Wikimedia
  {
    FamilyDomainForm(d);
    forall y | y in Wikimedia
      ensures '.' in Stem(y)
    {
      SpecialDomainForm(y);
    }
  }

  /** The bare `wikimedia.org` is in neither table. */
  lemma BareWikimediaUnlisted()
    ensures "wikimedia.org" !in SiteMatrix && "wikimedia.org" !in Wikimedia
  {
  }

  /** In `g.org` with no `or` in `g`, the first `org` is the top-level label. */
  lemma {:induction false} OrgAtEndOnly(g: string, j: nat)
    requires NoOr(g) && j <= |g|
    ensures !OccursAt(g + ".org", "org", j)
  {
    var s := g + ".org";
    if j + 3 <= |s| {
      if j + 1 < |g| {
        assert s[j] == g[j] && s[j + 1] == g[j + 1];
      } else if j + 1 == |g| {
        assert s[j + 1] == '.';
      } else {
        assert s[j] == '.';
      }
      assert s[j..j + 3][0] == s[j] && s[j..j + 3][1] == s[j + 1];
    }
  }

  /** `replace("org", p)` on `g.org` with no `or` in `g` rewrites the top-level label only. */
  lemma ReplaceTld(g: string, p: string)
    requires NoOr(g)
    ensures ReplaceFirst(g + ".org", "org", p) == g + "." + p
  {
    var s := g + ".org";
    assert s[|g| + 1..|g| + 4] == "org";
    forall j | 0 <= j < |g| + 1
      ensures !OccursAt(s, "org", j)
    {
      OrgAtEndOnly(g, j);
    }
    ReplaceFirstAt(s, "org", p, |g| + 1);
    assert s[..|g| + 1] == g + ".";
    assert s[|g| + 4..] == [];
  }

  /** In every `siteMatrix` and `wikimedia` entry `org` occurs only as the last label, so `replace("org", p)` rewrites just that. */
  lemma ReplaceOrgInDomain(d: string, p: string)
    requires d in SiteMatrix || d in Wikimedia
    ensures OrgTld(d) && ReplaceFirst(d, "org", p) == Stem(d) + "." + p
  {
    if d in SiteMatrix {
      FamilyDomainForm(d);
    } else {
      SpecialDomainForm(d);
    }
    ReplaceTld(Stem(d), p);
  }

  lemma LabelDotless(s: string)
    requires LabelShaped(s)
    ensures '.' !in s
  {
  }

  lemma JoinThree(a: string, b: string, c: string, sep: char)
    ensures Join([a, b, c], sep) == a + [sep] + b + [sep] + c
  {
    assert [a, b, c][1..] == [b, c];
    assert [b, c][1..] == [c];
    assert Join([b, c], sep) == b + [sep] + c;
    assert a + [sep] + (b + [sep] + c) == a + [sep] + b + [sep] + c;
  }

  /** A host `a.f.org` with one-label `a` and `f` is a `wikimedia`-shaped domain only when `f` is `wikimedia`. */
  lemma SpecialHostLabels(a: string, f: string, x: SpecialDomain)
    requires '.' !in a && '.' !in f
    requires x == a + "." + f + ".org"
    ensures f == "wikimedia"
  {
    SpecialDomainForm(x);
    var sub := x[..|x| - 14];
    LabelDotless(sub);
    assert '.' !in "org" && '.' !in "wikimedia";
    JoinThree(a, f, "org", '.');
    JoinThree(sub, "wikimedia", "org", '.');
    SplitInjective([a, f, "org"], [sub, "wikimedia", "org"], '.');
  }

  /** Putting a one-label name in front of a `siteMatrix` domain never gives a `wikimedia` entry. */
  lemma LabelledFamilyNotSpecial(a: string, d: string)
    requires '.' !in a && d in SiteMatrix
    ensures a + "." + d !in Wikimedia
  {
    FamilyDomainForm(d);
    BareWikimediaUnlisted();
    assert "wikimedia" + ".org" == "wikimedia.org";
    var f := Stem(d);
    assert a + "." + d == a + "." + f + ".org";
    assert a + "." + d in Wikimedia ==> f == "wikimedia" by {
      if a + "." + d in Wikimedia {
        SpecialHostLabels(a, f, a + "." + d);
      }
    }
  }

  /**
   * `siteRegex` (`(families|((subdomains)\.)?wikimedia)\.org`, flags `gi`) matches
   * all of `w`: its lower-case form is a family, an optional subdomain and
   * `wikimedia`, then `.org`.
   */
  predicate SiteRegexWord(w: string) {
    var l := Lower(w);
    || (exists f :: f in Families && l == f + ".org")
    || l == "wikimedia.org"
    || (exists sd :: sd in Subdomains && l == sd + ".wikimedia.org")
  }

  /** `siteRegex.test(s)` from a fresh `lastIndex`: some piece of `s` matches. */
  predicate SiteRegexMatches(s: string) {
    exists i, j :: 0 <= i <= j <= |s| && SiteRegexWord(s[i..j])
  }

  /** A family alternative of `siteRegex` followed by `.org` is a `siteMatrix` entry, and back. */
  lemma FamilyWord(l: string)
    ensures (exists f :: f in Families && l == f + ".org") <==> l in SiteMatrix
  {
    FamiliesLabelSiteMatrix();
    if l in SiteMatrix {
      var i :| 0 <= i < |SiteMatrix| && SiteMatrix[i] == l;
      assert Families[i] in Families;
    }
  }

  /** A subdomain alternative of `siteRegex`, `.wikimedia` and `.org` is a `wikimedia` entry, and back. */
  lemma SubdomainWord(l: string)
    ensures (exists sd :: sd in Subdomains && l == sd + ".wikimedia.org") <==> l in Wikimedia
  {
    SubdomainsLabelWikimedia();
    if l in Wikimedia {
      var i :| 0 <= i < |Wikimedia| && Wikimedia[i] == l;
      assert Subdomains[i] in Subdomains;
    }
  }

  /** The domains `siteRegex` names are exactly `siteMatrix`, `wikimedia` and the bare `wikimedia.org`. */
  lemma SiteRegexDomains(w: string)
    ensures SiteRegexWord(w) <==> Lower(w) in SiteMatrix || Lower(w) in Wikimedia || Lower(w) == "wikimedia.org"
  {
    FamilyWord(Lower(w));
    SubdomainWord(Lower(w));
  }

  lemma FamiliesLabelSiteMatrix()
    ensures |Families| == |SiteMatrix|
    ensures forall i :: 0 <= i < |SiteMatrix| ==> SiteMatrix[i] == Families[i] + ".org"
  {
  }

  lemma SubdomainsLabelWikimedia()
    ensures |Subdomains| == |Wikimedia|
    ensures forall i :: 0 <= i < |Wikimedia| ==> Wikimedia[i] == Subdomains[i] + ".wikimedia.org"
  {
    EntryA(); EntryB(); EntryC(); EntryD(); EntryE();
  }

  /** The entries of `Wikimedia`, one chunk at a time: each is its `Subdomains` label with `.wikimedia.org`. */
  lemma EntryA()
    ensures WikimediaA == [Subdomains[0] + ".wikimedia.org"]
  {
    assert Subdomains[0] == "commons";
    assert "commons" + ".wikimedia.org" == "commons.wikimedia.org";
  }

  lemma EntryB()
    ensures WikimediaB == [Subdomains[1] + ".wikimedia.org"]
  {
    assert Subdomains[1] == "meta";
    assert "meta" + ".wikimedia.org" == "meta.wikimedia.org";
  }

  lemma EntryC()
    ensures WikimediaC == [Subdomains[2] + ".wikimedia.org"]
  {
    assert Subdomains[2] == "species";
    assert "species" + ".wikimedia.org" == "species.wikimedia.org";
  }

  lemma EntryD()
    ensures WikimediaD == [Subdomains[3] + ".wikimedia.org"]
  {
    assert Subdomains[3] == "upload";
    assert "upload" + ".wikimedia.org" == "upload.wikimedia.org";
  }

  lemma EntryE()
    ensures WikimediaE == [Subdomains[4] + ".wikimedia.org"]
  {
    assert Subdomains[4] == "login";
    assert "login" + ".wikimedia.org" == "login.wikimedia.org";
  }

  /** `p[k]` occurs in `p` at `k` only. */
  predicate OnceIn(p: string, k: int) {
    0 <= k < |p| && forall m :: 0 <= m < |p| && p[m] == p[k] ==> m == k
  }

  /**
   * A front domain the mappings can be inverted for: some character of it occurs
   * once in it and in no registry domain, so the front domain cannot be found in a
   * front host earlier than where it was appended.
   */
  predicate DistinctiveProxy(p: string) {
    exists k :: 0 <= k < |p| && OnceIn(p, k) && (forall d :: d in SiteMatrix ==> p[k] !in d) && (forall d :: d in Wikimedia ==> p[k] !in d)
  }

  lemma NoXInFamilies()
    ensures forall d :: d in SiteMatrixA ==> 'x' !in d
    ensures forall d :: d in SiteMatrixB ==> 'x' !in d
  {
  }

  lemma NoXInSpecials()
    ensures forall d :: d in WikimediaA ==> 'x' !in d
    ensures forall d :: d in WikimediaB ==> 'x' !in d
    ensures forall d :: d in WikimediaC ==> 'x' !in d
    ensures forall d :: d in WikimediaD ==> 'x' !in d
    ensures forall d :: d in WikimediaE ==> 'x' !in d
  {
  }

  /** The default front domain `example.com` is distinctive: its `x`. */
  lemma DefaultProxyDistinctive()
    ensures DistinctiveProxy(Proxy)
  {
    assert OnceIn(Proxy, 1);
    NoXInFamilies();
    NoXInSpecials();
  }

  /** Lower-case letters and dots are their own lower case. */
  lemma LowerFixed(s: string)
    requires forall k :: 0 <= k < |s| ==> Letter(s[k]) || s[k] == '.'
    ensures Lower(s) == s
  {
  }

  /** The registry is written in lower case, so the `i` flag makes no difference to its domains. */
  lemma RegistryLowerCase(d: string)
    requires d in SiteMatrix || d in Wikimedia
    ensures Lower(d) == d
  {
    if d in SiteMatrix {
      FamilyLowerCase(d);
    } else {
      SpecialLowerCase(d);
    }
  }

  lemma FamilyLowerCase(d: FamilyDomain)
    ensures Lower(d) == d
  {
    var n := |d| - 4;
    assert forall k :: 0 <= k < |d| ==> Letter(d[k]) || d[k] == '.' by {
      forall k | 0 <= k < |d|
        ensures Letter(d[k]) || d[k] == '.'
      {
        if k < n {
          assert d[k] == d[..n][k];
        }
      }
    }
    LowerFixed(d);
  }

  lemma SpecialLowerCase(d: SpecialDomain)
    ensures Lower(d) == d
  {
    var n := |d| - 14;
    assert forall k :: 0 <= k < |d| ==> Letter(d[k]) || d[k] == '.' by {
      forall k | 0 <= k < |d|
        ensures Letter(d[k]) || d[k] == '.'
      {
        if k < n {
          assert d[k] == d[..n][k];
        } else if k < |d| - 4 {
          assert d[k] == d[|d| - 14..|d| - 4][k - n];
        }
      }
    }
    LowerFixed(d);
  }
}
