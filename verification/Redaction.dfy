/** Hiding the credentials of every URL in free text: a leftmost, greedy search for a scheme, "://" and a run up to its
    last @, replaced by "***@". */
module Redaction {
  import opened Options

  /** The letters under case-insensitive matching, which folds the long s and the Kelvin sign to ASCII letters. */
  predicate IsLetter(c: char) {
    'a' <= c <= 'z' || 'A' <= c <= 'Z' || c == 0x17F as char || c == 0x212A as char
  }

  predicate IsSchemeChar(c: char) {
    IsLetter(c) || '0' <= c <= '9' || c == '+' || c == '.' || c == '-'
  }

  predicate IsSpace(c: char) {
    c == '\t' || c == '\n' || c == 12 as char || c == '\r' || c == ' '
  }

  /** A character that credentials may hold. */
  predicate IsRun(c: char) { c != '/' && !IsSpace(c) }

  // What the pattern denotes

  /** "://" stands at j. */
  predicate SeparatorAt(s: string, j: int) {
    0 <= j && j + 3 <= |s| && s[j] == ':' && s[j + 1] == '/' && s[j + 2] == '/'
  }

  ghost predicate SchemeAt(s: string, i: int, j: int) {
    0 <= i < j < |s| && IsLetter(s[i]) && forall k :: i <= k < j ==> IsSchemeChar(s[k])
  }

  /** The pattern matches s[i..e], its group s[i..j + 3]. */
  ghost predicate Match(s: string, i: int, j: int, e: int) {
    SchemeAt(s, i, j) && SeparatorAt(s, j) && j + 3 < e <= |s| && s[e - 1] == '@' && forall k :: j + 3 <= k < e ==>
      IsRun(s[k])
  }

  /** The match that the greedy run makes: up to the last @ it can reach. */
  ghost predicate Longest(s: string, i: int, j: int, e: int) {
    Match(s, i, j, e) && forall x :: e < x ==> !Match(s, i, j, x)
  }

  // The search

  datatype Hit = Hit(start: nat, separator: nat, end: nat)

  function SchemeEnd(s: string, k: nat): (j: nat)
    requires k <= |s|
    ensures k <= j <= |s| && (forall x :: k <= x < j ==> IsSchemeChar(s[x])) && (j < |s| ==> !IsSchemeChar(s[j]))
    decreases |s| - k
  {
    if k < |s| && IsSchemeChar(s[k]) then SchemeEnd(s, k + 1) else k
  }

  function RunEnd(s: string, k: nat): (r: nat)
    requires k <= |s|
    ensures k <= r <= |s| && (forall x :: k <= x < r ==> IsRun(s[x])) && (r < |s| ==> !IsRun(s[r]))
    decreases |s| - k
  {
    if k < |s| && IsRun(s[k]) then RunEnd(s, k + 1) else k
  }

  /** One past the last @ of s[lo..hi], or lo. */
  function PastAt(s: string, lo: nat, hi: nat): (e: nat)
    requires lo <= hi <= |s|
    ensures lo <= e <= hi && (e > lo ==> s[e - 1] == '@') && forall x :: e <= x < hi ==> s[x] != '@'
  {
    if lo < hi && s[hi - 1] != '@' then PastAt(s, lo, hi - 1) else hi
  }

  function MatchAt(s: string, i: nat): (h: Option<Hit>)
    requires i < |s|
    ensures h.Some? ==> h.value.start == i && Longest(s, i, h.value.separator, h.value.end)
    ensures h.None? ==> forall j, e :: !Match(s, i, j, e)
  {
    var j := if IsLetter(s[i]) then SchemeEnd(s, i) else i;
    if j > i && SeparatorAt(s, j) then
      var r := RunEnd(s, j + 3);
      var e := PastAt(s, j + 3, r);
      if e > j + 3 then Some(Hit(i, j, e)) else None
    else None
  }

  /** The leftmost match from position i on. */
  function Find(s: string, i: nat): (h: Option<Hit>)
    requires i <= |s|
    ensures h.Some? ==> Longest(s, h.value.start, h.value.separator, h.value.end) && i <= h.value.start &&
                        forall x, j, e :: i <= x < h.value.start ==> !Match(s, x, j, e)
    ensures h.None? ==> forall x, j, e :: i <= x ==> !Match(s, x, j, e)
    decreases |s| - i
  {
    if i == |s| then None
    else if MatchAt(s, i).Some? then MatchAt(s, i)
    else Find(s, i + 1)
  }

  const MASK := "***@"

  /** The text up to the credentials of a match, the mask, and then `rest`. */
  function Mask(s: string, h: Hit, rest: string): string
    requires h.separator + 3 <= |s|
  {
    s[..h.separator + 3] + MASK + rest
  }

  function Redact(s: string): string
    decreases |s|
  {
    var h := Find(s, 0);
    if h.None? then s else Mask(s, h.value, Redact(s[h.value.end..]))
  }

  // The text as the pieces that were kept and the credentials that were not

  datatype Part = Kept(text: string) | Hidden(credentials: string)

  function Source(parts: seq<Part>): string {
    if parts == [] then ""
    else (match parts[0] case Kept(t) => t case Hidden(c) => c + "@") + Source(parts[1..])
  }

  function Shown(parts: seq<Part>): string {
    if parts == [] then ""
    else (match parts[0] case Kept(t) => t case Hidden(_) => MASK) + Shown(parts[1..])
  }

  function Parts(s: string): seq<Part>
    decreases |s|
  {
    var h := Find(s, 0);
    if h.None? then [Kept(s)]
    else
      var j, e := h.value.separator + 3, h.value.end;
      [Kept(s[..j]), Hidden(s[j..e - 1])] + Parts(s[e..])
  }

  lemma Splits(s: string, j: nat, e: nat)
    requires j < e <= |s| && s[e - 1] == '@'
    ensures s == s[..j] + (s[j..e - 1] + "@" + s[e..]) &&
            s[..j] + MASK + Redact(s[e..]) == s[..j] + (MASK + Redact(s[e..]))
  {
  }

  lemma SourceShown(kept: string, hidden: string, rest: seq<Part>)
    ensures Source([Kept(kept), Hidden(hidden)] + rest) == kept + (hidden + "@" + Source(rest))
    ensures Shown([Kept(kept), Hidden(hidden)] + rest) == kept + (MASK + Shown(rest))
  {
    var parts := [Kept(kept), Hidden(hidden)] + rest;
    assert parts[1..][0] == Hidden(hidden) && parts[1..][1..] == rest;
  }

  lemma PartsJoin(s: string, j: nat, e: nat, rest: seq<Part>)
    requires j < e <= |s| && s[e - 1] == '@' && Source(rest) == s[e..] && Shown(rest) == Redact(s[e..])
    ensures Source([Kept(s[..j]), Hidden(s[j..e - 1])] + rest) == s
    ensures Shown([Kept(s[..j]), Hidden(s[j..e - 1])] + rest) == s[..j] + MASK + Redact(s[e..])
  {
    SourceShown(s[..j], s[j..e - 1], rest);
    Splits(s, j, e);
  }

  lemma KeptShown(s: string)
    ensures Source([Kept(s)]) == Shown([Kept(s)]) == s
  {
    assert [Kept(s)][1..] == [];
  }

  lemma HitEnds(s: string, h: Hit)
    requires Longest(s, h.start, h.separator, h.end)
    ensures h.separator + 3 < h.end <= |s| && s[h.end - 1] == '@'
  {
  }

  /** How the text goes on: as it is, or with the leftmost match and the rest. */
  lemma PartsUnfold(s: string) returns (last: bool, j: nat, e: nat)
    ensures last ==> Parts(s) == [Kept(s)] && Redact(s) == s
    ensures !last ==> j < e <= |s| && s[e - 1] == '@' &&
                      Parts(s) == [Kept(s[..j]), Hidden(s[j..e - 1])] + Parts(s[e..]) &&
                      Redact(s) == s[..j] + MASK + Redact(s[e..])
  {
    hide Longest;
    hide Match;
    var h := Find(s, 0);
    last, j, e := h.None?, 0, 0;
    if !last {
      HitEnds(s, h.value);
      j, e := h.value.separator + 3, h.value.end;
    }
  }

  lemma {:induction false} PartsAreSource(s: string)
    ensures Source(Parts(s)) == s && Shown(Parts(s)) == Redact(s)
    decreases |s|
  {
    var last, j, e := PartsUnfold(s);
    if last {
      KeptShown(s);
    } else {
      PartsAreSource(s[e..]);
      PartsJoin(s, j, e, Parts(s[e..]));
    }
  }

  /** The text ends in a scheme and "://". */
  ghost predicate EndsInScheme(t: string) {
    exists i, j :: SchemeAt(t, i, j) && SeparatorAt(t, j) && j + 3 == |t|
  }

  /** Every @ of the text stands after a slash or a space. */
  ghost predicate Over(t: string) {
    forall x :: 0 <= x < |t| && t[x] == '@' ==> exists k :: 0 <= k < x && !IsRun(t[k])
  }

  predicate AllRun(s: string) { forall c :: c in s ==> IsRun(c) }

  /** Kept and hidden pieces take turns: what is hidden stands between a scheme's "://" and an @, holds no slash and no
      space, and goes on as far as it can. */
  ghost predicate WellCut(parts: seq<Part>) {
    parts != [] && parts[0].Kept? &&
    (|parts| == 1 ||
     (|parts| >= 3 && parts[1].Hidden? && EndsInScheme(parts[0].text) && AllRun(parts[1].credentials) &&
      WellCut(parts[2..]) && Over(parts[2].text)))
  }

  lemma FirstIsPrefix(s: string)
    ensures Parts(s) != [] && Parts(s)[0].Kept? && Parts(s)[0].text <= s
  {
  }

  lemma MatchEndsInScheme(s: string, i: int, j: int, e: int)
    requires Match(s, i, j, e)
    ensures EndsInScheme(s[..j + 3]) && AllRun(s[j + 3..e - 1])
  {
    assert SchemeAt(s[..j + 3], i, j);
  }

  lemma LongestIsOver(s: string, i: int, j: int, e: int, t: string)
    requires Longest(s, i, j, e) && t <= s[e..]
    ensures Over(t)
  {
    forall x | 0 <= x < |t| && t[x] == '@' ensures exists k :: 0 <= k < x && !IsRun(t[k]) {
      assert forall k :: 0 <= k <= x ==> s[e + k] == t[k];
      assert !Match(s, i, j, e + x + 1);
    }
  }

  lemma {:induction false} PartsAreWellCut(s: string)
    ensures WellCut(Parts(s))
    decreases |s|
  {
    var h := Find(s, 0);
    if h.Some? {
      var j, e := h.value.separator + 3, h.value.end;
      var rest := Parts(s[e..]);
      PartsAreWellCut(s[e..]);
      FirstIsPrefix(s[e..]);
      MatchEndsInScheme(s, h.value.start, h.value.separator, e);
      LongestIsOver(s, h.value.start, h.value.separator, e, rest[0].text);
      assert ([Kept(s[..j]), Hidden(s[j..e - 1])] + rest)[2..] == rest;
    }
  }

  /** Redaction replaces the credentials that stand after a scheme's "://", up to the last @ before a slash or a space,
      and changes nothing else. */
  lemma OnlyCredentialsChange(s: string)
    ensures Source(Parts(s)) == s && Shown(Parts(s)) == Redact(s) && WellCut(Parts(s))
  {
    PartsAreSource(s);
    PartsAreWellCut(s);
  }

  // What is left in the output

  /** Every scheme with credentials after it shows "***" for them. */
  ghost predicate Clean(t: string) {
    forall i, j, e :: Longest(t, i, j, e) ==> t[j + 3..e - 1] == "***"
  }

  lemma MatchShifts(a: string, b: string, i: int, j: int, e: int)
    requires |a| <= i
    ensures Match(a + b, i, j, e) <==> Match(b, i - |a|, j - |a|, e - |a|)
  {
    var s, n := a + b, |a|;
    if Match(s, i, j, e) {
      forall k | i - n <= k < j - n ensures IsSchemeChar(b[k]) {
        assert s[k + n] == b[k];
      }
      forall k | j - n + 3 <= k < e - n ensures IsRun(b[k]) {
        assert s[k + n] == b[k];
      }
    }
    if Match(b, i - n, j - n, e - n) {
      forall k | i <= k < j ensures IsSchemeChar(s[k]) {
        assert s[k] == b[k - n];
      }
      forall k | j + 3 <= k < e ensures IsRun(s[k]) {
        assert s[k] == b[k - n];
      }
    }
  }

  lemma LongestShifts(a: string, b: string, i: int, j: int, e: int)
    requires |a| <= i
    ensures Longest(a + b, i, j, e) <==> Longest(b, i - |a|, j - |a|, e - |a|)
  {
    var i', j', e' := i - |a|, j - |a|, e - |a|;
    MatchShifts(a, b, i, j, e);
    forall x | e < x && Match(a + b, i, j, x) ensures Match(b, i', j', x - |a|) {
      MatchShifts(a, b, i, j, x);
    }
    forall x | e' < x && Match(b, i', j', x) ensures Match(a + b, i, j, x + |a|) {
      MatchShifts(a, b, i, j, x + |a|);
    }
  }

  /** Up to its first slash or space a text stays as it is. */
  lemma RunUntouched(s: string)
    ensures var r := RunEnd(s, 0);
            if r == |s| then Redact(s) == s
            else |Redact(s)| > r && Redact(s)[..r + 1] == s[..r + 1]
  {
    var h := Find(s, 0);
    if h.Some? {
      assert !IsRun(s[h.value.separator + 1]);
    }
  }

  /** An @ that the mask's run reaches in what follows would have been reached in the source. */
  lemma MaskRunsOn(s: string, h: Hit, e: int)
    requires Match(s, h.start, h.separator, h.end) && e > 0
    requires var rest := Redact(s[h.end..]);
             e <= |rest| && rest[e - 1] == '@' && forall k :: 0 <= k < e ==> IsRun(rest[k])
    ensures Match(s, h.start, h.separator, h.end + e)
  {
    var rest := s[h.end..];
    RunUntouched(rest);
    var r := RunEnd(rest, 0);
    assert r < |rest| ==> Redact(rest)[..r + 1][r] == rest[r];
    assert e <= r;
    assert forall k :: 0 <= k < e ==> Redact(rest)[..r][k] == rest[..r][k];
    assert forall k :: 0 <= k < e ==> s[h.end + k] == rest[k] == Redact(rest)[k];
  }

  /** A match that begins before the leftmost one's separator, in a text that agrees with s up to there, is that one. */
  lemma EarlierIsSame(s: string, h: Hit, t: string, i: int, j: int, e: int)
    requires Match(s, h.start, h.separator, h.end) && forall x, y, z :: 0 <= x < h.start ==> !Match(s, x, y, z)
    requires Match(t, i, j, e) && i < h.separator && s[..h.separator + 3] <= t
    ensures j == h.separator
  {
    var n := h.separator + 3;
    assert forall k :: 0 <= k < n ==> t[k] == s[..n][k] == s[k];
    assert j <= h.separator;
    if j < h.separator {
      assert e <= h.separator + 1;
      assert Match(s, i, j, e);
    }
  }

  lemma MaskedIsClean(s: string, h: Hit, i: int, j: int, e: int)
    requires Longest(s, h.start, h.separator, h.end) && forall x, y, z :: 0 <= x < h.start ==> !Match(s, x, y, z)
    requires var t := s[..h.separator + 3] + MASK + Redact(s[h.end..]); Longest(t, i, j, e) && i < h.separator + 7
    ensures j == h.separator && e == h.separator + 7
  {
    var pre, rest, n := s[..h.separator + 3], Redact(s[h.end..]), h.separator + 7;
    var t := pre + MASK + rest;
    assert t[h.separator] == ':' && t[h.separator + 1] == '/' && t[h.separator + 2] == '/';
    assert t[n - 4] == t[n - 3] == t[n - 2] == '*' && t[n - 1] == '@';
    assert i < h.separator;
    EarlierIsSame(s, h, t, i, j, e);
    assert Match(t, i, j, n);
    RestRunsOn(s, h, t, i, j, e);
  }

  /** The mask is as far as a match can reach. */
  lemma RestRunsOn(s: string, h: Hit, t: string, i: int, j: int, e: int)
    requires Longest(s, h.start, h.separator, h.end)
    requires |t| >= h.separator + 7 && t[h.separator + 7..] == Redact(s[h.end..]) && Match(t, i, j, e) &&
             j == h.separator
    ensures e <= h.separator + 7
  {
    var rest, n := Redact(s[h.end..]), h.separator + 7;
    if e > n {
      assert forall k :: 0 <= k < e - n ==> rest[k] == t[n + k];
      MaskRunsOn(s, h, e - n);
    }
  }

  /** The text up to the mask and with it, before a clean rest, is clean. */
  lemma MaskedJoinsClean(s: string, h: Hit)
    requires Longest(s, h.start, h.separator, h.end) && forall x, y, z :: 0 <= x < h.start ==> !Match(s, x, y, z)
    requires Clean(Redact(s[h.end..]))
    ensures Clean(s[..h.separator + 3] + MASK + Redact(s[h.end..]))
  {
    var pre, rest := s[..h.separator + 3] + MASK, Redact(s[h.end..]);
    forall i, j, e | Longest(pre + rest, i, j, e) ensures (pre + rest)[j + 3..e - 1] == "***" {
      if i < |pre| {
        MaskedIsClean(s, h, i, j, e);
      } else {
        LongestShifts(pre, rest, i, j, e);
        assert (pre + rest)[j + 3..e - 1] == rest[j - |pre| + 3..e - 1 - |pre|];
      }
    }
  }

  lemma {:induction false} RedactClean(s: string)
    ensures Clean(Redact(s))
    decreases |s|
  {
    var h := Find(s, 0);
    if h.Some? {
      RedactClean(s[h.value.end..]);
      MaskedJoinsClean(s, h.value);
    }
  }

  lemma CleanSuffix(t: string, n: nat)
    requires Clean(t) && n <= |t|
    ensures Clean(t[n..])
  {
    assert t == t[..n] + t[n..];
    forall x, y, z | Longest(t[n..], x, y, z) ensures t[n..][y + 3..z - 1] == "***" {
      LongestShifts(t[..n], t[n..], x + n, y + n, z + n);
      assert t[n..][y + 3..z - 1] == t[y + n + 3..z + n - 1];
    }
  }

  lemma {:induction false} CleanIsFixed(t: string)
    requires Clean(t)
    ensures Redact(t) == t
    decreases |t|
  {
    var h := Find(t, 0);
    if h.Some? {
      var j, e := h.value.separator + 3, h.value.end;
      CleanSuffix(t, e);
      CleanIsFixed(t[e..]);
      assert t[j..e - 1] == "***";
      Splits(t, j, e);
      assert t[..j] + (MASK + t[e..]) == t;
    }
  }

  /** The output has "***", and nothing else, for the credentials of every URL in it, and redacting it again changes
      nothing. */
  lemma RedactionIsComplete(s: string)
    ensures Clean(Redact(s)) && Redact(Redact(s)) == Redact(s)
  {
    RedactClean(s);
    CleanIsFixed(Redact(s));
  }

  // Around the output

  /** A text that ends in a space, and in which no separator begins. */
  predicate IsLabel(p: string) { p != "" && p[|p| - 1] == ' ' && '/' !in p }

  /** Nothing becomes a credential by standing after a label. */
  lemma LabelKeepsClean(p: string, t: string)
    requires IsLabel(p) && Clean(t)
    ensures Clean(p + t)
  {
    var s := p + t;
    assert forall k :: 0 <= k < |p| ==> s[k] == p[k];
    assert s[|p| - 1] == ' ';
    forall i, j, e | Longest(s, i, j, e) ensures s[j + 3..e - 1] == "***" {
      assert |p| <= i;
      LongestShifts(p, t, i, j, e);
      assert s[j + 3..e - 1] == t[j - |p| + 3..e - 1 - |p|];
    }
  }

  /** The line breaks as spaces, for a header value. */
  function SingleLine(s: string): (r: string)
    ensures |r| == |s| && forall i :: 0 <= i < |s| ==> r[i] == if s[i] == '\r' || s[i] == '\n' then ' ' else s[i]
  {
    if s == "" then "" else [if s[0] == '\r' || s[0] == '\n' then ' ' else s[0]] + SingleLine(s[1..])
  }

  /** A break ends a run of credentials no less when it is a space. */
  lemma SingleLineKeepsClean(t: string)
    requires Clean(t)
    ensures Clean(SingleLine(t))
  {
    var u := SingleLine(t);
    forall i, j, e ensures Match(u, i, j, e) <==> Match(t, i, j, e) {
    }
    forall i, j, e | Longest(u, i, j, e) ensures u[j + 3..e - 1] == "***" {
      assert Longest(t, i, j, e);
      assert t[j + 3..e - 1] == "***";
      assert forall k :: j + 3 <= k < e - 1 ==> t[k] == t[j + 3..e - 1][k - j - 3];
    }
  }
}
