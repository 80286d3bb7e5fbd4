/** What redaction does to a text, told by the characters in it. */
module RedactionLaws {
  import opened Redaction
  import opened Texts
  import E = Exposure

  /** No URL has begun: "://" is not in the text. */
  ghost predicate NoSeparator(s: string) {
    forall k :: 0 <= k < |s| - 2 && s[k] == ':' ==> !(s[k + 1] == '/' && s[k + 2] == '/')
  }

  /** Every @ stands after a slash or white space. */
  ghost predicate AtsAreOver(s: string) {
    forall k :: 0 <= k < |s| && s[k] == '@' ==> exists m :: 0 <= m < k && s[m] in "/ \t\n\r\U{0c}"
  }

  /** A scheme by its characters: letters, those that fold to ASCII ones among them, digits, plus, dot and hyphen. */
  ghost predicate IsScheme(s: string) {
    s != "" && ('a' <= s[0] <= 'z' || 'A' <= s[0] <= 'Z' || s[0] in "\U{017f}\U{212a}") && forall c :: c in s ==>
      'a' <= c <= 'z' || 'A' <= c <= 'Z' || '0' <= c <= '9' || c in "+.-\U{017f}\U{212a}"
  }

  /** The parts of a text with a URL in it, by index. */
  lemma UrlEnds(before: string, scheme: string, credentials: string, rest: string)
    ensures var s, j := before + scheme + "://" + credentials + "@" + rest, |before| + |scheme|;
            var e := j + 3 + |credentials| + 1;
            e <= |s| && s[e..] == rest && s[..j + 3] == before + scheme + "://" && before <= s &&
            SeparatorAt(s, j) && s[e - 1] == '@'
  {
  }

  lemma UrlPieces(before: string, scheme: string, credentials: string, rest: string)
    ensures var s, j := before + scheme + "://" + credentials + "@" + rest, |before| + |scheme|;
            (forall k :: |before| <= k < j ==> s[k] == scheme[k - |before|]) &&
            (forall k :: j + 3 <= k < j + 3 + |credentials| ==> s[k] == credentials[k - j - 3]) &&
            s[j + 3 + |credentials|] == '@'
  {
  }

  /** The first separator of the text is at j. */
  ghost predicate FirstSeparator(s: string, j: int) { SeparatorAt(s, j) && forall k :: k < j ==> !SeparatorAt(s, k) }

  lemma SchemeIsFirst(s: string, before: string, j: int)
    requires |before| <= j && SeparatorAt(s, j) && before <= s && NoSeparator(before)
    requires forall k :: |before| <= k < j ==> s[k] != '/' && s[k] != ':'
    ensures FirstSeparator(s, j)
  {
    forall k | 0 <= k < j ensures !SeparatorAt(s, k) {
      if k + 3 <= |before| {
        assert before[k] == s[k] && before[k + 1] == s[k + 1] && before[k + 2] == s[k + 2];
      }
    }
  }

  /** Two matches of one separator end at the same place. */
  lemma SameEnd(s: string, h: int, i: int, j: int, e: int, f: int)
    requires Longest(s, i, j, e) && Longest(s, h, j, f)
    ensures e == f
  {
    assert Match(s, i, j, e) && Match(s, h, j, f);
    assert Match(s, h, j, e) && Match(s, i, j, f);
  }

  /** Where the search stops: any match of the first separator tells. */
  lemma FirstHit(s: string, i: int, j: int, e: int)
    requires FirstSeparator(s, j) && Longest(s, i, j, e)
    ensures Find(s, 0).Some? && Find(s, 0).value.separator == j && Find(s, 0).value.end == e
  {
    assert Match(s, i, j, e);
    var h := Find(s, 0).value;
    assert SchemeAt(s, h.start, h.separator) && SeparatorAt(s, h.separator) && h.start <= i by {
      assert Match(s, h.start, h.separator, h.end);
    }
    assert !IsSchemeChar(s[j]);
    hide Find;
    hide IsSchemeChar;
    SameEnd(s, h.start, i, j, e, h.end);
  }

  lemma RedactedAt(s: string, j: int, e: int)
    requires Find(s, 0).Some? && Find(s, 0).value.separator == j && Find(s, 0).value.end == e
    ensures 0 <= j + 3 < e <= |s| && Redact(s) == s[..j + 3] + "***@" + Redact(s[e..])
  {
  }

  lemma SchemeChars(s: string)
    requires IsScheme(s)
    ensures IsLetter(s[0]) && forall c :: c in s ==> IsSchemeChar(c) && c != '/' && c != ':'
  {
    assert s[0] in s;
  }

  lemma UrlMatches(s: string, p: int, j: int, e: int, before: string, rest: string)
    requires 0 <= p < j && j + 3 < e <= |s| && IsLetter(s[p]) && SeparatorAt(s, j) && s[e - 1] == '@'
    requires forall k :: p <= k < j ==> IsSchemeChar(s[k])
    requires forall k :: j + 3 <= k < e ==> IsRun(s[k])
    requires AtsAreOver(rest) && s[e..] == rest
    ensures Longest(s, p, j, e)
  {
    assert Match(s, p, j, e);
    forall x | e < x ensures !Match(s, p, j, x) {
      if x <= |s| && s[x - 1] == '@' {
        assert rest[x - 1 - e] == '@';
        var m :| 0 <= m < x - 1 - e && rest[m] in "/ \t\n\r\U{0c}";
        assert s[e + m] == rest[m] && !IsRun(s[e + m]);
      }
    }
  }

  lemma CredentialChars(s: string)
    requires forall c :: c in s ==> c !in "/ \t\n\r\U{0c}"
    ensures IsRun('@') && forall c :: c in s ==> IsRun(c)
  {
  }

  lemma UrlChars(before: string, scheme: string, credentials: string, rest: string)
    requires IsScheme(scheme) && forall c :: c in credentials ==> c !in "/ \t\n\r\U{0c}"
    ensures var s, p, j := before + scheme + "://" + credentials + "@" + rest, |before|, |before| + |scheme|;
            IsLetter(s[p]) && (forall k :: p <= k < j ==> IsSchemeChar(s[k]) && s[k] != '/' && s[k] != ':') &&
            forall k :: j + 3 <= k < j + 4 + |credentials| ==> IsRun(s[k])
  {
    var s, p, j := before + scheme + "://" + credentials + "@" + rest, |before|, |before| + |scheme|;
    UrlPieces(before, scheme, credentials, rest);
    SchemeChars(scheme);
    CredentialChars(credentials);
    hide IsRun;
    hide IsSchemeChar;
    hide IsLetter;
    hide IsScheme;
    forall k | p <= k < j ensures IsSchemeChar(s[k]) && s[k] != '/' && s[k] != ':' {
      assert scheme[k - p] in scheme;
    }
    forall k | j + 3 <= k < j + 3 + |credentials| ensures IsRun(s[k]) {
      assert credentials[k - j - 3] in credentials;
    }
  }

  lemma UrlAtRedacts(s: string, before: string, rest: string, j: int, e: int)
    requires |before| < j && j + 3 < e <= |s| && SeparatorAt(s, j) && s[e - 1] == '@' && before <= s && s[e..] == rest
    requires IsLetter(s[|before|]) && NoSeparator(before) && AtsAreOver(rest)
    requires forall k :: |before| <= k < j ==> IsSchemeChar(s[k]) && s[k] != '/' && s[k] != ':'
    requires forall k :: j + 3 <= k < e ==> IsRun(s[k])
    ensures Redact(s) == s[..j + 3] + "***@" + Redact(rest)
  {
    hide IsRun;
    hide IsSchemeChar;
    hide IsLetter;
    hide NoSeparator;
    hide AtsAreOver;
    SchemeIsFirst(s, before, j);
    UrlMatches(s, |before|, j, e, before, rest);
    hide Longest;
    hide FirstSeparator;
    FirstHit(s, |before|, j, e);
    hide Find;
    RedactedAt(s, j, e);
  }

  /** A URL with credentials, after any text in which no URL has begun, and before any text in which no @ stands before
      a slash or white space: the credentials, and nothing else up to there, are replaced by three stars. */
  lemma UrlIsRedacted(before: string, scheme: string, credentials: string, rest: string)
    requires NoSeparator(before) && IsScheme(scheme) && AtsAreOver(rest)
    requires forall c :: c in credentials ==> c !in "/ \t\n\r\U{0c}"
    ensures Redact(before + scheme + "://" + credentials + "@" + rest) ==
              before + scheme + "://" + "***@" + Redact(rest)
  {
    var s, j := before + scheme + "://" + credentials + "@" + rest, |before| + |scheme|;
    UrlChars(before, scheme, credentials, rest);
    hide IsRun;
    hide IsSchemeChar;
    hide IsLetter;
    hide IsScheme;
    hide NoSeparator;
    hide AtsAreOver;
    hide Redact;
    UrlEnds(before, scheme, credentials, rest);
    UrlAtRedacts(s, before, rest, j, j + 4 + |credentials|);
  }

  /** A text that is just such a URL, with a plain host behind the credentials. */
  lemma ProxyUrlIsRedacted(scheme: string, credentials: string, host: string)
    requires IsScheme(scheme) && '@' !in host && forall c :: c in credentials ==> c !in "/ \t\n\r\U{0c}"
    ensures Redact(scheme + "://" + credentials + "@" + host) == scheme + "://***@" + host
  {
    assert AtsAreOver(host);
    UrlIsRedacted("", scheme, credentials, host);
    assert "" + scheme == scheme;
    TextIsKept(host);
    assert scheme + "://" + "***@" + host == scheme + "://***@" + host;
  }

  /** "://" stands at j. */
  ghost predicate UrlAt(s: string, j: int) { 0 <= j < |s| - 2 && s[j] == ':' && s[j + 1] == '/' && s[j + 2] == '/' }

  /** A slash or white space stands between. */
  ghost predicate Parted(s: string, from: int, to: int)
    requires 0 <= from && to <= |s|
  {
    exists m :: from <= m < to && s[m] in "/ \t\n\r\U{0c}"
  }

  /** From i on, a letter first, the characters before j may be a scheme. */
  ghost predicate Schemish(s: string, i: int, j: int)
    requires 0 <= i < j <= |s|
  {
    ('a' <= s[i] <= 'z' || 'A' <= s[i] <= 'Z' || s[i] in "\U{017f}\U{212a}") && forall k :: i <= k < j ==>
      'a' <= s[k] <= 'z' || 'A' <= s[k] <= 'Z' || '0' <= s[k] <= '9' || s[k] in "+.-\U{017f}\U{212a}"
  }

  /** No @ has credentials before it: where one stands after a "://", a slash or white space is between, or what stands
      before the "://" is no scheme. */
  ghost predicate NoCredentials(s: string) {
    forall i, j, e :: 0 <= i < j && UrlAt(s, j) && j + 3 <= e < |s| && s[e] == '@' && Schemish(s, i, j) ==>
      Parted(s, j + 3, e)
  }

  lemma MatchIsUnparted(s: string, i: int, j: int, e: int)
    requires Match(s, i, j, e)
    ensures 0 <= i < j && UrlAt(s, j) && j + 3 <= e - 1 < |s| && s[e - 1] == '@' && Schemish(s, i, j)
    ensures !Parted(s, j + 3, e - 1)
  {
    forall m | j + 3 <= m < e - 1 ensures s[m] !in "/ \t\n\r\U{0c}" {
      assert IsRun(s[m]);
    }
  }

  /** Such a text is returned as it is. */
  lemma TextIsKept(s: string)
    requires NoCredentials(s)
    ensures Redact(s) == s
  {
    forall i, j, e | Match(s, i, j, e) ensures false {
      MatchIsUnparted(s, i, j, e);
    }
  }

  /** In particular a text without an @, or without "://". */
  lemma PlainTextIsKept(s: string)
    requires '@' !in s || NoSeparator(s)
    ensures Redact(s) == s
  {
    assert NoCredentials(s);
    TextIsKept(s);
  }

  // Texts with several URLs

  /** No match goes across white space. */
  lemma MatchesPart(x: string, y: string, i: int, j: int, e: int)
    requires y != "" && y[0] in " \t\n\r\U{0c}" && Match(x + y, i, j, e)
    ensures e <= |x| || |x| < i
  {
    var t := x + y;
    assert t[|x|] == y[0] && !IsRun(y[0]) && !IsSchemeChar(y[0]) && y[0] != ':' && y[0] != '/';
  }

  lemma FindInFront(x: string, y: string)
    requires y != "" && y[0] in " \t\n\r\U{0c}" && Find(x, 0).Some?
    ensures Find(x + y, 0).Some? && Find(x + y, 0).value.separator == Find(x, 0).value.separator &&
            Find(x + y, 0).value.end == Find(x, 0).value.end
  {
    var h, t := Find(x, 0).value, x + y;
    forall f | Match(t, h.start, h.separator, f) ensures f <= |x| {
      MatchesPart(x, y, h.start, h.separator, f);
    }
    E.FrontLongest(x, y, h.start, h.separator, h.end);
    assert Match(t, h.start, h.separator, h.end);
    var g := Find(t, 0).value;
    assert Match(t, g.start, g.separator, g.end) && g.start <= h.start;
    MatchesPart(x, y, g.start, g.separator, g.end);
    E.FrontMatch(x, y, g.start, g.separator, g.end);
    assert g.start == h.start;
    OneSeparator(t, h.start, g.separator, g.end, h.separator, h.end);
  }

  lemma OneSeparator(s: string, i: int, j: int, e: int, k: int, f: int)
    requires Longest(s, i, j, e) && Longest(s, i, k, f)
    ensures j == k && e == f
  {
    assert Match(s, i, j, e) && Match(s, i, k, f);
    assert !IsSchemeChar(s[j]) && !IsSchemeChar(s[k]);
  }

  lemma MatchBehind(x: string, y: string, i: int, j: int, e: int)
    requires y != "" && y[0] in " \t\n\r\U{0c}" && Find(x, 0).None? && Match(x + y, i, j, e)
    ensures |x| < i && Match(y, i - |x|, j - |x|, e - |x|)
  {
    MatchesPart(x, y, i, j, e);
    if e <= |x| {
      E.FrontMatch(x, y, i, j, e);
    } else {
      MatchShifts(x, y, i, j, e);
    }
  }

  lemma FindBehind(x: string, y: string)
    requires y != "" && y[0] in " \t\n\r\U{0c}" && Find(x, 0).None?
    ensures Find(x + y, 0).Some? <==> Find(y, 0).Some?
    ensures Find(y, 0).Some? ==>
              Find(x + y, 0).value.separator == |x| + Find(y, 0).value.separator &&
              Find(x + y, 0).value.end == |x| + Find(y, 0).value.end
  {
    var t, n := x + y, |x|;
    hide IsSchemeChar;
    hide IsRun;
    hide Match;
    hide Find;
    if Find(t, 0).Some? {
      var g := Find(t, 0).value;
      assert Match(t, g.start, g.separator, g.end);
      MatchBehind(x, y, g.start, g.separator, g.end);
    }
    if Find(y, 0).Some? {
      var h := Find(y, 0).value;
      LongestShifts(x, y, h.start + n, h.separator + n, h.end + n);
      assert Match(t, h.start + n, h.separator + n, h.end + n);
      var g := Find(t, 0).value;
      assert Match(t, g.start, g.separator, g.end);
      MatchBehind(x, y, g.start, g.separator, g.end);
      assert g.start - n == h.start;
      OneSeparator(t, g.start, g.separator, g.end, h.separator + n, h.end + n);
    }
  }

  /** White space parts a text: each side is redacted on its own. */
  lemma {:induction false} RedactsApart(x: string, y: string)
    requires y != "" && y[0] in " \t\n\r\U{0c}"
    ensures Redact(x + y) == Redact(x) + Redact(y)
    decreases |x|
  {
    hide Find;
    hide Redact;
    if Find(x, 0).Some? {
      var j, e := Find(x, 0).value.separator, Find(x, 0).value.end;
      FindInFront(x, y);
      RedactedAt(x, j, e);
      RedactedAt(x + y, j, e);
      RedactsApart(x[e..], y);
      Cut(x, y, j + 3, e);
      Joins(x[..j + 3] + "***@", Redact(x[e..]), Redact(y));
    } else {
      FindBehind(x, y);
      NothingFound(x);
      if Find(y, 0).Some? {
        var j, e := Find(y, 0).value.separator, Find(y, 0).value.end;
        RedactedAt(y, j, e);
        RedactedAt(x + y, |x| + j, |x| + e);
        CutBehind(x, y, j + 3, e);
        Joins(x, y[..j + 3] + "***@", Redact(y[e..]));
        Joins(x, y[..j + 3], "***@");
      } else {
        NothingFound(y);
        NothingFound(x + y);
      }
    }
  }

  lemma NothingFound(s: string)
    requires Find(s, 0).None?
    ensures Redact(s) == s
  {
  }

  lemma Cut(x: string, y: string, j: int, e: int)
    requires 0 <= j <= e <= |x|
    ensures (x + y)[e..] == x[e..] + y && (x + y)[..j] == x[..j]
  {
  }

  lemma CutBehind(x: string, y: string, j: int, e: int)
    requires 0 <= j <= e <= |y|
    ensures (x + y)[|x| + e..] == y[e..] && (x + y)[..|x| + j] == x + y[..j]
  {
  }
}
