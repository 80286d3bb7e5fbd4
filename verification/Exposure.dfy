/** What a printed Proxy-Status entry shows of the credentials in its texts. The printer writes a tab or a line break as
    a question mark, so that a run of credentials which such a character ended is whole again once printed. */
module Exposure {
  import opened Options
  import opened Redaction
  import opened Texts
  import P = ProxyStatus

  // Putting texts together

  lemma NoSlashIsClean(t: string)
    requires '/' !in t
    ensures Clean(t)
  {
    assert forall k :: 0 <= k < |t| ==> t[k] in t;
  }

  lemma FrontMatch(x: string, rest: string, i: int, j: int, e: int)
    requires e <= |x|
    ensures Match(x + rest, i, j, e) <==> Match(x, i, j, e)
  {
    var t := x + rest;
    assert forall k :: 0 <= k < |x| ==> t[k] == x[k];
  }

  /** Where no match of this start reaches beyond x, the longest is that of x alone. */
  lemma FrontLongest(x: string, rest: string, i: int, j: int, e: int)
    requires forall f :: Match(x + rest, i, j, f) ==> f <= |x|
    ensures Longest(x + rest, i, j, e) <==> Longest(x, i, j, e)
    ensures Longest(x, i, j, e) ==> (x + rest)[j + 3..e - 1] == x[j + 3..e - 1]
  {
    forall f | f <= |x| ensures Match(x + rest, i, j, f) <==> Match(x, i, j, f) {
      FrontMatch(x, rest, i, j, f);
    }
  }

  /** No match of the whole goes from x over into y. */
  ghost predicate Apart(x: string, y: string) {
    forall i, j, e :: Match(x + y, i, j, e) ==> e <= |x| || i >= |x|
  }

  lemma PartsAreClean(x: string, y: string)
    requires Apart(x, y) && Clean(x + y)
    ensures Clean(x) && Clean(y)
  {
    var t, n := x + y, |x|;
    forall i, j, e | Longest(x, i, j, e) ensures x[j + 3..e - 1] == "***" {
      FrontLongest(x, y, i, j, e);
    }
    forall i, j, e | Longest(y, i, j, e) ensures y[j + 3..e - 1] == "***" {
      LongestShifts(x, y, i + n, j + n, e + n);
      assert t[j + n + 3..e + n - 1] == y[j + 3..e - 1];
    }
  }

  lemma CleanAreParts(x: string, y: string)
    requires Apart(x, y) && Clean(x) && Clean(y)
    ensures Clean(x + y)
  {
    var t, n := x + y, |x|;
    forall i, j, e | Longest(t, i, j, e) ensures t[j + 3..e - 1] == "***" {
      if i < n {
        FrontLongest(x, y, i, j, e);
      } else {
        LongestShifts(x, y, i, j, e);
        assert t[j + 3..e - 1] == y[j - n + 3..e - n - 1];
      }
    }
  }

  lemma ApartAreParts(x: string, y: string)
    requires Apart(x, y)
    ensures Clean(x + y) <==> Clean(x) && Clean(y)
  {
    if Clean(x + y) {
      PartsAreClean(x, y);
    } else if Clean(x) && Clean(y) {
      CleanAreParts(x, y);
    }
  }

  /** A space parts what stands before it and after it. */
  lemma SpaceParts(x: string, y: string)
    ensures Clean(x + (" " + y)) <==> Clean(x) && Clean(y)
  {
    var t := x + (" " + y);
    assert t[|x|] == ' ';
    forall i, j, e | Match(t, i, j, e) ensures e <= |x| || i >= |x| {
    }
    ApartAreParts(x, " " + y);
    StartParts(" ", y);
  }

  /** A start without a slash, whose last character can be in no scheme and no separator, parts from what follows. */
  lemma StartParts(p: string, y: string)
    requires p != "" && '/' !in p && !IsSchemeChar(p[|p| - 1]) && p[|p| - 1] != ':'
    ensures Clean(p + y) <==> Clean(y)
  {
    assert forall k :: 0 <= k < |p| ==> (p + y)[k] == p[k] && p[k] in p;
    ApartAreParts(p, y);
    NoSlashIsClean(p);
  }

  /** A last character other than an @ ends no match. */
  lemma EndDrops(x: string, c: char)
    requires c != '@' && !IsLetter(c)
    ensures Clean(x + [c]) <==> Clean(x)
  {
    assert (x + [c])[|x|] == c;
    ApartAreParts(x, [c]);
    NoMatchIsClean([c]);
  }

  lemma NoMatchIsClean(t: string)
    requires |t| <= 1
    ensures Clean(t)
  {
  }

  // Escapes

  predicate IsEscaped(c: char) { c == '"' || c == '\\' }

  /** Where an end goes when a backslash is put in at n. */
  function MovedEnd(n: int, e: int): int { if e <= n then e else e + 1 }

  lemma FrontEscape(a: string, b: string, i: int, j: int, e: int)
    requires b != "" && IsEscaped(b[0]) && i < |a|
    ensures Match(a + b, i, j, e) <==> Match(a + ("\\" + b), i, j, MovedEnd(|a|, e))
    ensures Match(a + b, i, j, e) ==> j + 3 <= |a|
    ensures !Match(a + ("\\" + b), i, j, |a| + 1) && (Match(a + ("\\" + b), i, j, e) ==> j + 3 <= |a|)
  {
    var s, t, n := a + b, a + ("\\" + b), |a|;
    assert forall k :: 0 <= k < n ==> s[k] == t[k] == a[k];
    assert forall k :: n <= k < |s| ==> s[k] == t[k + 1];
    assert s[n] == t[n + 1] == b[0] && t[n] == '\\';
    if Match(s, i, j, e) {
      assert j < n;
      forall k | j + 3 <= k < MovedEnd(n, e) ensures IsRun(t[k]) {
        assert k < n || k == n || IsRun(s[k - 1]);
      }
    }
    if Match(t, i, j, MovedEnd(n, e)) {
      assert j < n;
      forall k | j + 3 <= k < e ensures IsRun(s[k]) {
        assert if k < n then s[k] == t[k] else s[k] == t[k + 1];
      }
    }
  }

  /** A backslash before a character that is in no scheme and no separator changes nothing. */
  lemma EscapeKeeps(a: string, b: string)
    requires b != "" && IsEscaped(b[0])
    ensures Clean(a + ("\\" + b)) <==> Clean(a + b)
  {
    var s, t, n := a + b, a + ("\\" + b), |a|;
    assert s[n] == b[0] && t[n] == '\\' && t == (a + "\\") + b;
    if Clean(s) {
      forall i, j, e | Longest(t, i, j, e) ensures t[j + 3..e - 1] == "***" {
        EscapedIsClean(a, b, i, j, e);
      }
    }
    if Clean(t) {
      forall i, j, e | Longest(s, i, j, e) ensures s[j + 3..e - 1] == "***" {
        UnescapedIsClean(a, b, i, j, e);
      }
    }
  }

  /** The longest matches of the two texts correspond. */
  lemma FrontLongestEscape(a: string, b: string, i: int, j: int, e: int)
    requires b != "" && IsEscaped(b[0]) && i < |a|
    ensures Longest(a + b, i, j, e) <==> Longest(a + ("\\" + b), i, j, MovedEnd(|a|, e))
    ensures Longest(a + b, i, j, e) ==> j + 3 <= |a|
  {
    var s, t, n := a + b, a + ("\\" + b), |a|;
    FrontEscape(a, b, i, j, e);
    forall x | e < x && Match(s, i, j, x) ensures Match(t, i, j, MovedEnd(n, x)) && MovedEnd(n, e) < MovedEnd(n, x) {
      FrontEscape(a, b, i, j, x);
    }
    forall x | MovedEnd(n, e) < x && Match(t, i, j, x)
      ensures exists y :: e < y && Match(s, i, j, y)
    {
      var y := if x <= n then x else x - 1;
      FrontEscape(a, b, i, j, x);
      FrontEscape(a, b, i, j, y);
      assert MovedEnd(n, y) == x;
    }
  }

  /** And show the same: where the backslash is in one, there are no three stars in either. */
  lemma EscapeShows(a: string, b: string, j: int, e: int)
    requires b != "" && IsEscaped(b[0]) && 0 <= j && j + 3 <= |a| && j + 3 < e <= |a| + |b| && (a + b)[e - 1] == '@'
    ensures (a + b)[j + 3..e - 1] == "***" <==> (a + ("\\" + b))[j + 3..MovedEnd(|a|, e) - 1] == "***"
  {
    var s, t, n := a + b, a + ("\\" + b), |a|;
    var p, q := s[j + 3..e - 1], t[j + 3..MovedEnd(n, e) - 1];
    if e <= n {
      assert p == q == a[j + 3..e - 1];
    } else {
      assert e - 1 > n && p[n - j - 3] == b[0] && q[n - j - 3] == '\\';
    }
  }

  /** Behind the backslash everything has moved on by one. */
  lemma BehindEscape(a: string, b: string, i: int, j: int, e: int)
    requires i > |a|
    ensures Longest(a + ("\\" + b), i, j, e) <==> Longest(a + b, i - 1, j - 1, e - 1)
    ensures Longest(a + b, i - 1, j - 1, e - 1) ==> (a + ("\\" + b))[j + 3..e - 1] == (a + b)[j + 2..e - 2]
  {
    var s, t, n := a + b, a + ("\\" + b), |a|;
    assert t == (a + "\\") + b;
    LongestShifts(a + "\\", b, i, j, e);
    LongestShifts(a, b, i - 1, j - 1, e - 1);
    if Longest(s, i - 1, j - 1, e - 1) {
      assert t[j + 3..e - 1] == b[j + 2 - n..e - 2 - n] == s[j + 2..e - 2];
    }
  }

  lemma EscapedIsClean(a: string, b: string, i: int, j: int, e: int)
    requires b != "" && IsEscaped(b[0]) && Clean(a + b) && Longest(a + ("\\" + b), i, j, e)
    ensures (a + ("\\" + b))[j + 3..e - 1] == "***"
  {
    var n := |a|;
    if i > n {
      BehindEscape(a, b, i, j, e);
    } else {
      assert (a + ("\\" + b))[n] == '\\';
      var f := if e <= n then e else e - 1;
      FrontEscape(a, b, i, j, e);
      FrontLongestEscape(a, b, i, j, f);
      EscapeShows(a, b, j, f);
    }
  }

  lemma UnescapedIsClean(a: string, b: string, i: int, j: int, e: int)
    requires b != "" && IsEscaped(b[0]) && Clean(a + ("\\" + b)) && Longest(a + b, i, j, e)
    ensures (a + b)[j + 3..e - 1] == "***"
  {
    assert (a + b)[|a|] == b[0];
    if i > |a| {
      BehindEscape(a, b, i + 1, j + 1, e + 1);
    } else {
      FrontLongestEscape(a, b, i, j, e);
      EscapeShows(a, b, j, e);
    }
  }

  /** An escaped text is clean, after whatever text, when it is so unescaped. */
  lemma {:induction false} EscapesKeep(x: string, s: string)
    ensures Clean(x + P.EscapeAll(s)) <==> Clean(x + P.ShownAll(s))
    decreases |s|
  {
    hide Clean;
    if s != "" {
      var c, shown := P.Escape(s[0]), P.ShownAll(s[1..]);
      EscapesKeep(x + c, s[1..]);
      Joins(x, c, P.EscapeAll(s[1..]));
      Joins(x, c, shown);
      if IsEscaped(s[0]) {
        EscapeKeeps(x, [s[0]] + shown);
        assert c + shown == "\\" + ([s[0]] + shown);
      }
    }
  }

  /** A quoted text shows what the text shows once its unprintable characters are question marks. */
  lemma QuoteShows(p: string, s: string)
    requires '/' !in p
    ensures Clean(p + P.Quote(s)) <==> Clean(P.ShownAll(s))
  {
    hide Clean;
    var open, e := p + "\"", P.EscapeAll(s);
    Joins(p, "\"" + e, "\"");
    Joins(p, "\"", e);
    EndDrops(open + e, '"');
    StartParts(open, e);
    EscapesKeep("", s);
    assert "" + e == e && "" + P.ShownAll(s) == P.ShownAll(s);
  }

  /** A parameter that no credentials can be in: neither its name nor its value holds a slash, unless the value is a
      text. */
  predicate IsPlain(q: P.Param) { '/' !in q.key && (q.value.Str? || '/' !in P.PrintBare(q.value)) }

  /** What a parameter shows. */
  ghost predicate Shows(q: P.Param) { q.value.Str? && !Clean(P.ShownAll(q.value.text)) }

  lemma ParamShows(q: P.Param)
    requires IsPlain(q)
    ensures Clean(q.key + ("=" + P.PrintBare(q.value))) <==> !Shows(q)
  {
    Joins(q.key, "=", P.PrintBare(q.value));
    if q.value.Str? {
      QuoteShows(q.key + "=", q.value.text);
    } else {
      NoSlashIsClean(q.key + ("=" + P.PrintBare(q.value)));
    }
  }

  lemma ParamSplits(x: string, key: string, bare: string, rest: string)
    ensures x + (("; " + (key + ("=" + bare))) + rest) == (x + ";") + (" " + ((key + ("=" + bare)) + rest))
  {
    var kv := key + ("=" + bare);
    assert "; " + kv + rest == ";" + (" " + (kv + rest));
    Joins(x, ";", " " + (kv + rest));
  }

  /** A text with parameters after it is clean exactly when it is, and no parameter shows anything. */
  lemma {:induction false} ParamsShow(x: string, params: seq<P.Param>)
    requires forall q :: q in params ==> IsPlain(q)
    ensures Clean(x + P.PrintParams(params)) <==> Clean(x) && forall q :: q in params ==> !Shows(q)
    decreases |params|
  {
    if params == [] {
      assert x + P.PrintParams(params) == x;
    } else {
      var q, rest := params[0], P.PrintParams(params[1..]);
      var kv := q.key + ("=" + P.PrintBare(q.value));
      ParamSplits(x, q.key, P.PrintBare(q.value), rest);
      hide Clean;
      hide Shows;
      hide IsPlain;
      SpaceParts(x + ";", kv + rest);
      EndDrops(x, ';');
      ParamsShow(kv, params[1..]);
      ParamShows(q);
      assert forall r :: r in params <==> r == q || r in params[1..];
    }
  }

  lemma ParamsArePlain(p: P.Status)
    requires '/' !in p.err
    ensures forall q :: q in P.Params(p) ==> IsPlain(q)
  {
    IntHasNoSlash(p.received);
    hide P.PrintInt;
  }

  /** An entry shows credentials exactly when one of its two texts does, its unprintable characters as question
      marks. */
  lemma EntryShows(p: P.Status)
    requires '/' !in p.err
    ensures Clean(P.Print(p)) <==> Clean(P.ShownAll(p.nextHop)) && Clean(P.ShownAll(p.details))
  {
    NoSlashIsClean("tip");
    NoSlashIsClean(P.ShownAll(""));
    ParamsArePlain(p);
    EntryTexts(p);
    hide Clean;
    hide Shows;
    hide IsPlain;
    ParamsShow("tip", P.Params(p));
  }

  lemma EntryTexts(p: P.Status)
    ensures (forall q :: q in P.Params(p) ==> !Shows(q)) <==>
            (p.nextHop == "" || Clean(P.ShownAll(p.nextHop))) && (p.details == "" || Clean(P.ShownAll(p.details)))
  {
    hide Clean;
    var hop, details := P.Param("next-hop", P.Str(p.nextHop)), P.Param("details", P.Str(p.details));
    assert p.nextHop != "" ==> hop in P.Params(p);
    assert p.details != "" ==> details in P.Params(p);
    assert forall q :: q in P.Params(p) && q.value.Str? ==>
             (p.nextHop != "" && q == hop) || (p.details != "" && q == details);
  }

  lemma IntHasNoSlash(n: int)
    ensures '/' !in P.PrintInt(n)
  {
    NatHasNoSlash(if n < 0 then -n else n);
  }

  lemma {:induction false} NatHasNoSlash(n: nat)
    ensures '/' !in PrintNat(n)
  {
    if n >= 10 {
      NatHasNoSlash(n / 10);
    }
  }

  // Credentials that a printed text shows

  /** A character that credentials may hold once printed: no slash and no plain space. */
  predicate IsLoose(c: char) { c != '/' && c != ' ' }

  /** The pattern matches s[i..e] once s is printed. */
  ghost predicate LooseMatch(s: string, i: int, j: int, e: int) {
    SchemeAt(s, i, j) && (forall k :: i <= k < j ==> P.Printable(s[k])) && SeparatorAt(s, j) &&
    j + 3 < e <= |s| && s[e - 1] == '@' && forall k :: j + 3 <= k < e ==> IsLoose(s[k])
  }

  /** And a tab or a line break stands in it, at k. */
  ghost predicate Broken(s: string, i: int, j: int, e: int, k: int) {
    LooseMatch(s, i, j, e) && j + 3 <= k < e && IsSpace(s[k])
  }

  /** The credentials of some URL in the text are broken by a tab, a form feed or a line break. */
  ghost predicate Exposed(s: string) { exists i, j, e, k :: Broken(s, i, j, e, k) }

  lemma CharShows(c: char)
    ensures var d := P.Shown(c);
            (IsLetter(d) <==> IsLetter(c) && P.Printable(c)) &&
            (IsSchemeChar(d) <==> IsSchemeChar(c) && P.Printable(c)) &&
            (IsRun(d) <==> IsLoose(c)) && (d == ':' <==> c == ':') && (d == '/' <==> c == '/') &&
            (d == '@' <==> c == '@')
  {
  }

  lemma ShownScheme(s: string, i: int, j: int)
    ensures SchemeAt(P.ShownAll(s), i, j) && SeparatorAt(P.ShownAll(s), j) <==>
            SchemeAt(s, i, j) && (forall k :: i <= k < j ==> P.Printable(s[k])) && SeparatorAt(s, j)
  {
    forall k | 0 <= k < |s| ensures var c, d := s[k], P.ShownAll(s)[k];
      (IsLetter(d) <==> IsLetter(c) && P.Printable(c)) && (IsSchemeChar(d) <==> IsSchemeChar(c) && P.Printable(c)) &&
      (d == ':' <==> c == ':') && (d == '/' <==> c == '/')
    {
      CharShows(s[k]);
    }
    hide IsLetter;
    hide IsSchemeChar;
    hide P.Shown;
    hide P.Printable;
  }

  lemma ShownMatch(s: string, i: int, j: int, e: int)
    ensures Match(P.ShownAll(s), i, j, e) <==> LooseMatch(s, i, j, e)
  {
    ShownScheme(s, i, j);
    forall k | 0 <= k < |s| ensures var c, d := s[k], P.ShownAll(s)[k];
      (IsRun(d) <==> IsLoose(c)) && (d == '@' <==> c == '@') {
      CharShows(s[k]);
    }
    hide SchemeAt;
    hide SeparatorAt;
    hide IsRun;
    hide IsLoose;
    hide P.Shown;
    hide P.Printable;
  }

  /** A match goes on to a longest one. */
  lemma {:induction false} Extends(t: string, i: int, j: int, e: int) returns (f: int)
    requires Match(t, i, j, e)
    ensures e <= f && Longest(t, i, j, f)
    decreases |t| - e
  {
    f := e;
    if x :| e < x && Match(t, i, j, x) {
      f := Extends(t, i, j, x);
    }
  }

  /** What breaks credentials shows as a question mark among them. */
  lemma ExposedShows(u: string, i: int, j: int, e: int, k: int)
    requires Broken(u, i, j, e, k)
    ensures !Clean(P.ShownAll(u))
  {
    var t := P.ShownAll(u);
    ShownMatch(u, i, j, e);
    var f := Extends(t, i, j, e);
    assert u[k] != '@' && t[k] == '?';
    assert k < f - 1 && t[j + 3..f - 1][k - j - 3] == '?';
  }

  lemma UnbrokenMatch(u: string, i: int, j: int, e: int)
    requires !Exposed(u) && LooseMatch(u, i, j, e)
    ensures Match(u, i, j, e)
  {
    forall k | j + 3 <= k < e ensures IsRun(u[k]) {
      assert !Broken(u, i, j, e, k);
    }
  }

  lemma StrictIsLoose(u: string, i: int, j: int, e: int, x: int)
    requires LooseMatch(u, i, j, e) && Match(u, i, j, x)
    ensures LooseMatch(u, i, j, x)
  {
  }

  lemma UnbrokenLongest(u: string, i: int, j: int, e: int)
    requires !Exposed(u) && Longest(P.ShownAll(u), i, j, e)
    ensures Longest(u, i, j, e)
  {
    ShownMatch(u, i, j, e);
    UnbrokenMatch(u, i, j, e);
    hide LooseMatch;
    hide Match;
    forall x | e < x && Match(u, i, j, x) ensures Match(P.ShownAll(u), i, j, x) {
      StrictIsLoose(u, i, j, e, x);
      ShownMatch(u, i, j, x);
    }
  }

  lemma ThreeAt(s: string, lo: int)
    requires 0 <= lo && lo + 3 <= |s|
    ensures s[lo..lo + 3] == [s[lo], s[lo + 1], s[lo + 2]]
  {
  }

  lemma StarsShow(u: string, lo: int, hi: int)
    requires 0 <= lo <= hi <= |u| && u[lo..hi] == "***"
    ensures P.ShownAll(u)[lo..hi] == "***"
  {
    assert |u[lo..hi]| == 3;
    ThreeAt(u, lo);
    ThreeAt(P.ShownAll(u), lo);
  }

  lemma CleanAt(u: string, i: int, j: int, e: int)
    requires Clean(u) && Longest(u, i, j, e)
    ensures 0 <= j + 3 <= e - 1 < |u| && u[j + 3..e - 1] == "***"
  {
  }

  lemma ShownIsClean(u: string, i: int, j: int, e: int)
    requires Clean(u) && !Exposed(u) && Longest(P.ShownAll(u), i, j, e)
    ensures 0 <= j + 3 <= e - 1 < |u| && P.ShownAll(u)[j + 3..e - 1] == "***"
  {
    hide Longest;
    hide Exposed;
    hide Clean;
    UnbrokenLongest(u, i, j, e);
    CleanAt(u, i, j, e);
    StarsShow(u, j + 3, e - 1);
  }

  /** A clean text is clean when printed exactly when nothing in it is broken. */
  lemma CleanShowsExactly(u: string)
    requires Clean(u)
    ensures Clean(P.ShownAll(u)) <==> !Exposed(u)
  {
    if i, j, e, k :| Broken(u, i, j, e, k) {
      ExposedShows(u, i, j, e, k);
    } else {
      forall i, j, e | Longest(P.ShownAll(u), i, j, e) ensures P.ShownAll(u)[j + 3..e - 1] == "***" {
        ShownIsClean(u, i, j, e);
      }
    }
  }

  // Redaction neither breaks credentials nor mends them

  /** b stands at the end of s, from n on. */
  ghost predicate Ends(s: string, n: int, b: string) {
    0 <= n && |s| == n + |b| && forall x :: n <= x < |s| ==> s[x] == b[x - n]
  }

  lemma BrokenInEnd(s: string, n: int, b: string, i: int, j: int, e: int, k: int)
    requires Ends(s, n, b) && n <= i && Broken(s, i, j, e, k)
    ensures Broken(b, i - n, j - n, e - n, k - n)
  {
    assert forall x :: 0 <= x < |b| ==> b[x] == s[x + n];
  }

  lemma BrokenAtEnd(s: string, n: int, b: string, i: int, j: int, e: int, k: int)
    requires Ends(s, n, b) && Broken(b, i, j, e, k)
    ensures Broken(s, i + n, j + n, e + n, k + n)
  {
  }

  /** Up to its first slash, u is how v begins. */
  ghost predicate SameToSlash(u: string, v: string) {
    forall c :: SlashFreeTo(u, c) ==> c <= |v| && forall x :: 0 <= x < c ==> v[x] == u[x]
  }

  predicate SlashFreeTo(u: string, c: int) { 0 <= c <= |u| && forall x :: 0 <= x < c ==> u[x] != '/' }

  /** The texts differ only in what stands between their separator at m and an @, and in what follows. */
  ghost predicate Swaps(s: string, t: string, m: int, n: int, o: int, u: string, v: string) {
    0 <= m && m + 3 < n && m + 3 < o && Ends(s, n, u) && Ends(t, o, v) && SeparatorAt(s, m) && SeparatorAt(t, m) &&
    s[n - 1] == t[o - 1] == '@' && (forall x :: m + 3 <= x < n ==> IsRun(s[x])) &&
    (forall x :: m + 3 <= x < o ==> IsRun(t[x])) &&
    forall x :: 0 <= x < m + 3 ==> s[x] == t[x]
  }

  /** No broken credentials begin between the separator of the first match and its end. */
  lemma BrokenWhere(s: string, m: int, n: int, i: int, j: int, e: int, k: int)
    requires SeparatorAt(s, m) && m + 3 < n <= |s| && s[n - 1] == '@' && (forall x :: m + 3 <= x < n ==> s[x] != '/')
    requires Broken(s, i, j, e, k)
    ensures (j < m && e <= m + 1) || j == m || i >= n
  {
    assert !IsLoose(s[m + 1]) && !IsSchemeChar(s[n - 1]) && s[n - 1] != ':';
    assert forall x :: 0 <= x < |s| - 2 && SeparatorAt(s, x) ==> s[x + 1] == '/' && s[x] == ':';
  }

  lemma RunCrosses(s: string, t: string, m: int, n: int, o: int, u: string, v: string, i: int, e: int, k: int)
    requires Swaps(s, t, m, n, o, u, v) && SameToSlash(u, v) && Broken(s, i, m, e, k)
    ensures Broken(t, i, m, o + (e - n), o + (k - n))
  {
    assert k >= n && e > n;
    var c := e - n;
    assert forall x :: n <= x < e ==> IsLoose(s[x]) && s[x] == u[x - n];
    assert forall x :: 0 <= x < c ==> u[x] == s[x + n];
    assert SlashFreeTo(u, c);
    assert forall x :: o <= x < o + c ==> t[x] == v[x - o] == u[x - o] == s[x - o + n];
  }

  /** Broken credentials of one such text are some of the other, if that is so of what follows. */
  lemma BrokenCrosses(s: string, t: string, m: int, n: int, o: int, u: string, v: string, i: int, j: int, e: int,
                      k: int)
    requires Swaps(s, t, m, n, o, u, v) && SameToSlash(u, v) && Broken(s, i, j, e, k) && (Exposed(u) ==> Exposed(v))
    ensures Exposed(t)
  {
    BrokenWhere(s, m, n, i, j, e, k);
    if j < m {
      assert Broken(t, i, j, e, k);
    } else if j == m {
      RunCrosses(s, t, m, n, o, u, v, i, e, k);
    } else {
      BrokenInEnd(s, n, u, i, j, e, k);
      var x, y, z, w :| Broken(v, x, y, z, w);
      BrokenAtEnd(t, o, v, x, y, z, w);
    }
  }

  lemma SwapsKeepsToSlash(s: string, t: string, m: int, n: int, o: int, u: string, v: string)
    requires Swaps(s, t, m, n, o, u, v)
    ensures SameToSlash(s, t)
  {
    assert s[m + 1] == '/';
  }

  lemma RedactKeepsToSlash(s: string)
    ensures SameToSlash(s, Redact(s)) && SameToSlash(Redact(s), s)
  {
    hide Longest;
    hide Match;
    hide Mask;
    hide Swaps;
    var h := Find(s, 0);
    if h.Some? {
      var m, n := h.value.separator, h.value.end;
      RedactSwaps(s, h.value);
      SwapsKeepsToSlash(s, Redact(s), m, n, m + 7, s[n..], Redact(s[n..]));
      SwapsMirror(s, Redact(s), m, n, m + 7, s[n..], Redact(s[n..]));
      SwapsKeepsToSlash(Redact(s), s, m, m + 7, n, Redact(s[n..]), s[n..]);
    }
  }

  lemma SwapsMirror(s: string, t: string, m: int, n: int, o: int, u: string, v: string)
    requires Swaps(s, t, m, n, o, u, v)
    ensures Swaps(t, s, m, o, n, v, u)
  {
  }

  lemma HitFacts(s: string, h: Hit)
    requires Longest(s, h.start, h.separator, h.end)
    ensures h.separator + 3 < h.end <= |s| && SeparatorAt(s, h.separator) && s[h.end - 1] == '@'
    ensures forall x :: h.separator + 3 <= x < h.end ==> IsRun(s[x])
  {
  }

  lemma MaskSwaps(s: string, h: Hit, rest: string)
    requires var m, n := h.separator, h.end;
             m + 3 < n <= |s| && SeparatorAt(s, m) && s[n - 1] == '@' && forall x :: m + 3 <= x < n ==> IsRun(s[x])
    ensures Swaps(s, Mask(s, h, rest), h.separator, h.end, h.separator + 7, s[h.end..], rest)
  {
    var m, n, head := h.separator, h.end, s[..h.separator + 3] + MASK;
    var t := head + rest;
    assert forall x :: 0 <= x < m + 7 ==> t[x] == head[x];
    assert forall x :: 0 <= x < m + 3 ==> head[x] == s[..m + 3][x] == s[x];
    assert head[m + 3] == head[m + 4] == head[m + 5] == '*' && head[m + 6] == '@';
    assert Ends(t, m + 7, rest) && Ends(s, n, s[n..]);
  }

  lemma RedactUnfolds(s: string, h: Hit)
    requires Find(s, 0) == Some(h)
    ensures Longest(s, h.start, h.separator, h.end) && h.separator + 3 <= |s| && h.end <= |s|
    ensures Redact(s) == Mask(s, h, Redact(s[h.end..]))
  {
    hide Longest;
    hide Match;
    hide Mask;
    HitEnds(s, h);
  }

  /** What Redact does to the first match. */
  lemma RedactSwaps(s: string, h: Hit)
    requires Find(s, 0) == Some(h)
    ensures 0 < h.end <= |s| && Swaps(s, Redact(s), h.separator, h.end, h.separator + 7, s[h.end..], Redact(s[h.end..]))
  {
    hide Longest;
    hide Match;
    hide Swaps;
    hide Mask;
    RedactUnfolds(s, h);
    HitFacts(s, h);
    hide Redact;
    MaskSwaps(s, h, Redact(s[h.end..]));
  }

  lemma ExposedCrosses(s: string, t: string, m: int, n: int, o: int, u: string, v: string)
    requires Swaps(s, t, m, n, o, u, v) && SameToSlash(u, v) && (Exposed(u) ==> Exposed(v)) && Exposed(s)
    ensures Exposed(t)
  {
    var i, j, e, k :| Broken(s, i, j, e, k);
    BrokenCrosses(s, t, m, n, o, u, v, i, j, e, k);
  }

  /** Redaction leaves a text exposed exactly when it was: it neither breaks credentials nor mends them. */
  lemma {:induction false} RedactExposes(s: string)
    ensures Exposed(s) <==> Exposed(Redact(s))
    decreases |s|
  {
    hide Longest;
    hide Match;
    hide Mask;
    hide Swaps;
    var f := Find(s, 0);
    if f.Some? {
      var m, n := f.value.separator, f.value.end;
      RedactSwaps(s, f.value);
      var t, u := Redact(s), s[n..];
      var v := Redact(u);
      RedactExposes(u);
      RedactKeepsToSlash(u);
      SwapsMirror(s, t, m, n, m + 7, u, v);
      hide Redact;
      hide Exposed;
      hide SameToSlash;
      if Exposed(s) {
        ExposedCrosses(s, t, m, n, m + 7, u, v);
      }
      if Exposed(t) {
        ExposedCrosses(t, s, m, m + 7, n, v, u);
      }
    }
  }

  /** The texts that break no credentials whatever they hold: those without a tab, a form feed or a line break. */
  predicate OneLine(s: string) { '\t' !in s && '\n' !in s && 12 as char !in s && '\r' !in s }

  lemma OneLineIsSafe(s: string)
    requires OneLine(s)
    ensures !Exposed(s)
  {
    assert forall k :: 0 <= k < |s| ==> s[k] in s;
  }
}
