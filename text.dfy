/**
 * The JavaScript string operations the proxy's URL mapping is built from,
 * as functions on `seq<char>`: `startsWith`, `includes`, `indexOf`,
 * `replace` with a string pattern, `split` on one character, `join`,
 * `slice` and ASCII `toLowerCase`.
 */
module Text {
  import opened Wrappers

  /** JavaScript `s.startsWith(p)`. */
  predicate StartsWith(s: string, p: string) {
    |p| <= |s| && s[..|p|] == p
  }

  /** `pat` occurs in `s` beginning at index `i`. */
  predicate OccursAt(s: string, pat: string, i: int) {
    0 <= i && i + |pat| <= |s| && s[i..i + |pat|] == pat
  }

  lemma OccursAtTail(s: string, pat: string, j: int)
    requires |s| > 0 && j >= 1
    ensures OccursAt(s, pat, j) <==> OccursAt(s[1..], pat, j - 1)
  {
    if j + |pat| <= |s| {
      assert s[1..][j - 1..j - 1 + |pat|] == s[j..j + |pat|];
    }
  }

  /** JavaScript `s.indexOf(pat)`: the first index at which `pat` occurs. */
  function IndexOf(s: string, pat: string): (r: Option<nat>)
    ensures r.Some? ==> OccursAt(s, pat, r.value)
    ensures r.Some? ==> forall j :: 0 <= j < r.value ==> !OccursAt(s, pat, j)
    ensures r.None? ==> forall j :: !OccursAt(s, pat, j)
    decreases |s|
  {
    if StartsWith(s, pat) then Some(0)
    else if |s| == 0 then None
    else
      var tail := IndexOf(s[1..], pat);
      assert forall j :: j >= 1 ==> (OccursAt(s, pat, j) <==> OccursAt(s[1..], pat, j - 1)) by {
        forall j | j >= 1 { OccursAtTail(s, pat, j); }
      }
      match tail
      case None => None
      case Some(k) => Some(k + 1)
  }

  /** JavaScript `s.includes(pat)`. */
  predicate Contains(s: string, pat: string) {
    IndexOf(s, pat).Some?
  }

  /** JavaScript `s.replace(pat, rep)` with a string pattern: only the first occurrence is replaced. */
  function ReplaceFirst(s: string, pat: string, rep: string): string {
    match IndexOf(s, pat)
    case None => s
    case Some(i) => s[..i] + rep + s[i + |pat|..]
  }

  /** When `pat` first occurs at `i`, `replace` splices `rep` in there and keeps the rest of `s`. */
  lemma ReplaceFirstAt(s: string, pat: string, rep: string, i: nat)
    requires OccursAt(s, pat, i)
    requires forall j :: 0 <= j < i ==> !OccursAt(s, pat, j)
    ensures ReplaceFirst(s, pat, rep) == s[..i] + rep + s[i + |pat|..]
  {
  }

  /** JavaScript `s.slice(k)` for a non-negative `k`: the tail from `k`, empty past the end. */
  function Slice(s: string, k: nat): (r: string)
    ensures k <= |s| ==> s == s[..k] + r
    ensures k >= |s| ==> r == []
  {
    if k <= |s| then s[k..] else []
  }

  function LowerChar(c: char): char {
    if 'A' <= c <= 'Z' then (c as int + 32) as char else c
  }

  /** ASCII `toLowerCase`; the regular expressions' `i` flag compares through it. */
  function Lower(s: string): (r: string)
    ensures |r| == |s|
    ensures forall k :: 0 <= k < |s| ==> r[k] == LowerChar(s[k])
  {
    seq(|s|, k requires 0 <= k < |s| => LowerChar(s[k]))
  }

  /** Case-insensitive `startsWith` against a lower-case pattern (a `^p` regex with the `i` flag). */
  predicate StartsWithIgnoringCase(s: string, p: string) {
    StartsWith(Lower(s), p)
  }

  /** JavaScript `parts.join(sep)` for a one-character separator. */
  function Join(parts: seq<string>, sep: char): string
    requires |parts| >= 1
  {
    if |parts| == 1 then parts[0] else parts[0] + [sep] + Join(parts[1..], sep)
  }

  /** JavaScript `s.split(sep)` for a one-character separator: the separator-free pieces between separators. */
  function Split(s: string, sep: char): (parts: seq<string>)
    ensures |parts| >= 1
    ensures Join(parts, sep) == s
    ensures forall i :: 0 <= i < |parts| ==> sep !in parts[i]
    decreases |s|
  {
    if |s| == 0 then [[]]
    else
      var rest := Split(s[1..], sep);
      if s[0] == sep then
        assert s == [] + [sep] + s[1..];
        [[]] + rest
      else
        var parts := [[s[0]] + rest[0]] + rest[1..];
        assert Join(parts, sep) == s by {
          if |rest| > 1 {
            assert Join(parts, sep) == [s[0]] + rest[0] + [sep] + Join(rest[1..], sep);
          }
          assert s == [s[0]] + s[1..];
        }
        parts
  }

  /** Splitting a joined list of separator-free pieces gives the pieces back. */
  lemma {:induction false} SplitJoin(parts: seq<string>, sep: char)
    requires |parts| >= 1
    requires forall i :: 0 <= i < |parts| ==> sep !in parts[i]
    ensures Split(Join(parts, sep), sep) == parts
  {
    SplitInjective(Split(Join(parts, sep), sep), parts, sep);
  }

  /** `Join` is injective on lists of separator-free pieces. */
  lemma {:induction false} SplitInjective(a: seq<string>, b: seq<string>, sep: char)
    requires |a| >= 1 && |b| >= 1
    requires forall i :: 0 <= i < |a| ==> sep !in a[i]
    requires forall i :: 0 <= i < |b| ==> sep !in b[i]
    requires Join(a, sep) == Join(b, sep)
    ensures a == b
    decreases |a|
  {
    var s := Join(a, sep);
    if |a| == 1 && |b| == 1 {
    } else if |a| == 1 || |b| == 1 {
      assert false;
    } else {
      var ta, tb := Join(a[1..], sep), Join(b[1..], sep);
      FirstPieceLength(a[0], ta, b[0], tb, sep);
      assert a[0] == s[..|a[0]|] == b[0];
      assert ta == s[|a[0]| + 1..] == tb;
      SplitInjective(a[1..], b[1..], sep);
      assert a == [a[0]] + a[1..];
      assert b == [b[0]] + b[1..];
    }
  }

  lemma FirstPieceLength(x: string, xs: string, y: string, ys: string, sep: char)
    requires sep !in x && sep !in y
    requires x + [sep] + xs == y + [sep] + ys
    ensures |x| == |y|
  {
    SeparatorAfterPiece(x, xs, sep);
    SeparatorAfterPiece(y, ys, sep);
  }

  /** In `x + [sep] + xs` with `sep` not in `x`, the first separator is at index `|x|`. */
  lemma SeparatorAfterPiece(x: string, xs: string, sep: char)
    requires sep !in x
    ensures (x + [sep] + xs)[|x|] == sep
    ensures forall k :: 0 <= k < |x| ==> (x + [sep] + xs)[k] != sep
  {
  }

  /** The first of `cands`, in list order, that `s` starts with: an unanchored alternation tried left to right. */
  function FirstPrefix(cands: seq<string>, s: string): (r: Option<string>)
    ensures r.Some? ==> r.value in cands && StartsWith(s, r.value)
    ensures r.None? ==> forall c :: c in cands ==> !StartsWith(s, c)
  {
    if |cands| == 0 then None
    else if StartsWith(s, cands[0]) then Some(cands[0])
    else FirstPrefix(cands[1..], s)
  }

  /** Trying `a + b` in order tries `a` first and falls back to `b`. */
  lemma {:induction false} FirstPrefixAppend(a: seq<string>, b: seq<string>, s: string)
    ensures FirstPrefix(a + b, s) == if FirstPrefix(a, s).Some? then FirstPrefix(a, s) else FirstPrefix(b, s)
  {
    if |a| == 0 {
      assert a + b == b;
    } else {
      assert (a + b)[1..] == a[1..] + b;
      FirstPrefixAppend(a[1..], b, s);
    }
  }

  /** A pattern with a character that `s` lacks does not occur in `s`. */
  lemma AbsentFrom(s: string, pat: string, k: nat)
    requires k < |pat| && pat[k] !in s
    ensures IndexOf(s, pat).None?
  {
    forall j | 0 <= j && j + |pat| <= |s|
      ensures !OccursAt(s, pat, j)
    {
      assert s[j..j + |pat|][k] == s[j + k];
    }
  }

  /** When `p` has a character that occurs once in it and nowhere in `x`, the first `p` in `x + p` is the appended one. */
  lemma AppendedOccurrence(x: string, p: string, k: nat)
    requires k < |p| && p[k] !in x
    requires forall m :: 0 <= m < |p| && p[m] == p[k] ==> m == k
    ensures IndexOf(x + p, p) == Some(|x|)
  {
    assert OccursAt(x + p, p, |x|) by {
      assert (x + p)[|x|..|x| + |p|] == p;
    }
    forall j | 0 <= j < |x|
      ensures !OccursAt(x + p, p, j)
    {
      NoEarlierOccurrence(x, p, k, j);
    }
  }

  lemma NoEarlierOccurrence(x: string, p: string, k: nat, j: nat)
    requires k < |p| && p[k] !in x
    requires forall m :: 0 <= m < |p| && p[m] == p[k] ==> m == k
    requires j < |x|
    ensures !OccursAt(x + p, p, j)
  {
    var s := x + p;
    if j + |p| <= |s| {
      var c := s[j + k];
      if j + k < |x| {
        assert c == x[j + k];
      } else {
        assert c == p[j + k - |x|];
      }
      assert s[j..j + |p|][k] == c != p[k];
    }
  }

  /** ... and `replace` swaps exactly that occurrence. */
  lemma ReplaceAppended(x: string, p: string, k: nat, rep: string)
    requires k < |p| && p[k] !in x
    requires forall m :: 0 <= m < |p| && p[m] == p[k] ==> m == k
    ensures ReplaceFirst(x + p, p, rep) == x + rep
  {
    AppendedOccurrence(x, p, k);
    var s := x + p;
    assert s[..|x|] == x;
    assert s[|x| + |p|..] == [];
  }

  /** Joining a list with a head puts the head and a separator in front. */
  lemma JoinCons(a: string, parts: seq<string>, sep: char)
    requires |parts| >= 1
    ensures Join([a] + parts, sep) == a + [sep] + Join(parts, sep)
  {
    assert ([a] + parts)[1..] == parts;
  }

  /** A joined list is at least as long as its first piece and its separators. */
  lemma {:induction false} JoinLength(parts: seq<string>, sep: char)
    requires |parts| >= 1
    ensures |Join(parts, sep)| >= |parts[0]| + |parts| - 1
  {
    if |parts| > 1 {
      JoinLength(parts[1..], sep);
    }
  }

  /** The total length of the parts. */
  function TotalLength(parts: seq<string>): nat {
    if |parts| == 0 then 0 else |parts[0]| + TotalLength(parts[1..])
  }

  /** The total length of two runs of parts is the sum of theirs. */
  lemma {:induction false} TotalLengthAppend(a: seq<string>, b: seq<string>)
    ensures TotalLength(a + b) == TotalLength(a) + TotalLength(b)
  {
    if |a| > 0 {
      assert (a + b)[1..] == a[1..] + b;
      TotalLengthAppend(a[1..], b);
    } else {
      assert a + b == b;
    }
  }

  /** A join is as long as its parts together with one separator between each two. */
  lemma {:induction false} JoinLengthExact(parts: seq<string>, sep: char)
    requires |parts| >= 1
    ensures |Join(parts, sep)| == TotalLength(parts) + |parts| - 1
  {
    if |parts| > 1 {
      JoinLengthExact(parts[1..], sep);
    }
  }

  /**
   * In `sep r tail`, with `r` free of `sep` and `tail` empty or starting with `sep`,
   * `split(sep)` has `r` as its second piece.
   */
  lemma SplitSecond(r: string, tail: string, sep: char)
    requires sep !in r
    requires |tail| == 0 || tail[0] == sep
    ensures |Split([sep] + r + tail, sep)| >= 2 && Split([sep] + r + tail, sep)[1] == r
  {
    if |tail| == 0 {
      JoinCons([], [r], sep);
      assert Join([[], r], sep) == [sep] + r + tail;
      SplitJoin([[], r], sep);
    } else {
      var t := tail[1..];
      assert [sep] + r + tail == [sep] + r + [sep] + t;
      SplitSecondBefore(r, t, sep);
      assert ([[], r] + Split(t, sep))[1] == r;
    }
  }

  lemma SplitSecondBefore(r: string, t: string, sep: char)
    requires sep !in r
    ensures Split([sep] + r + [sep] + t, sep) == [[], r] + Split(t, sep)
  {
    var more := Split(t, sep);
    var parts := [[], r] + more;
    JoinCons(r, more, sep);
    assert [r] + more == parts[1..];
    JoinCons([], [r] + more, sep);
    assert Join(parts, sep) == [sep] + r + [sep] + t;
    SplitJoin(parts, sep);
  }

  /** A piece free of the separator, then the separator, comes out of `split` as the first piece. */
  lemma SplitCons(a: string, t: string, sep: char)
    requires sep !in a
    ensures Split(a + [sep] + t, sep) == [a] + Split(t, sep)
  {
    var parts := [a] + Split(t, sep);
    JoinCons(a, Split(t, sep), sep);
    assert forall i :: 1 <= i < |parts| ==> parts[i] == Split(t, sep)[i - 1];
    SplitJoin(parts, sep);
  }

  /** Text without the separator splits into itself alone. */
  lemma SplitSingle(a: string, sep: char)
    requires sep !in a
    ensures Split(a, sep) == [a]
  {
    SplitJoin([a], sep);
  }

  /** Lower-casing works character by character, so it distributes over concatenation. */
  lemma LowerConcat(a: string, b: string)
    ensures Lower(a + b) == Lower(a) + Lower(b)
  {
  }

  /** A prefix of the lower-case form is the lower-case form of the prefix. */
  lemma LowerPrefix(s: string, k: nat)
    requires k <= |s|
    ensures Lower(s)[..k] == Lower(s[..k]) && Lower(s)[k..] == Lower(s[k..])
  {
  }

  /** Starting with `p + q` is starting with `p` and then, after it, with `q`. */
  lemma StartsWithThen(s: string, p: string, q: string)
    ensures StartsWith(s, p + q) <==> StartsWith(s, p) && StartsWith(s[|p|..], q)
  {
    if |p| + |q| <= |s| {
      assert s[..|p| + |q|] == s[..|p|] + s[|p|..][..|q|];
    }
  }

  /** In lower case, `x` starts with `p + q` exactly when it starts with `p` and its rest with `q`. */
  lemma LowerThen(x: string, p: string, q: string)
    requires |p| <= |x|
    ensures StartsWith(Lower(x), p + q) <==> StartsWith(Lower(x), p) && StartsWith(Lower(x[|p|..]), q)
  {
    LowerPrefix(x, |p|);
    StartsWithThen(Lower(x), p, q);
  }

  /** `s` has no upper-case ASCII letter. */
  predicate LowerCased(s: string) {
    forall k :: 0 <= k < |s| ==> !('A' <= s[k] <= 'Z')
  }

  lemma LowerOfLowerCased(s: string)
    requires LowerCased(s)
    ensures Lower(s) == s
  {
  }

  /** `s.replace(/\/+$/, "")`: `s` without the slashes it ends with. */
  function StripTrailingSlashes(s: string): (r: string)
    ensures |r| <= |s| && r == s[..|r|]
    ensures |r| == 0 || r[|r| - 1] != '/'
    ensures forall k :: |r| <= k < |s| ==> s[k] == '/'
  {
    if |s| > 0 && s[|s| - 1] == '/' then StripTrailingSlashes(s[..|s| - 1]) else s
  }
}
