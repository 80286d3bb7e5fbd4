/** TIP's entry in a Proxy-Status field (RFC 9209, section 2), and the parser that its readers use (RFC 8941, section
    4.2). */
module ProxyStatus {
  import opened Options
  import opened Texts

  datatype Status = Status(err: string, nextHop: string, received: int, details: string)

  datatype Bare = Integer(value: int) | Str(text: string) | Token(name: string) | True

  datatype Param = Param(key: string, value: Bare)

  datatype Item = Item(bare: Bare, params: seq<Param>)

  // The printer

  predicate Printable(c: char) { ' ' <= c <= '~' }

  /** How a character is read back: itself when it is printable ASCII, else a question mark. */
  function Shown(c: char): char { if Printable(c) then c else '?' }

  function ShownAll(s: string): (r: string)
    ensures |r| == |s| && forall i :: 0 <= i < |s| ==> r[i] == Shown(s[i])
  {
    if s == "" then "" else [Shown(s[0])] + ShownAll(s[1..])
  }

  function Escape(c: char): string { if c == '"' || c == '\\' then ['\\', c] else [Shown(c)] }

  function EscapeAll(s: string): string { if s == "" then "" else Escape(s[0]) + EscapeAll(s[1..]) }

  lemma EscapeNext(s: string, i: nat, out: string)
    requires i < |s|
    ensures out + EscapeAll(s[i..]) == out + Escape(s[i]) + EscapeAll(s[i + 1..])
  {
    assert s[i..][0] == s[i] && s[i..][1..] == s[i + 1..];
  }

  function Quote(s: string): string { "\"" + EscapeAll(s) + "\"" }

  /** Quotes a Structured Field string, rune by rune. */
  method SfString(s: string) returns (out: string)
    ensures out == Quote(s)
  {
    out := "\"";
    for i := 0 to |s|
      invariant out + EscapeAll(s[i..]) == "\"" + EscapeAll(s)
    {
      var r := s[i];
      EscapeNext(s, i, out);
      if r == '"' || r == '\\' {
        out := out + ['\\', r];
      } else if r < ' ' || r > '~' {
        out := out + "?";
      } else {
        out := out + [r];
      }
    }
    out := out + "\"";
  }

  function PrintInt(n: int): string { if n < 0 then "-" + PrintNat(-n) else PrintNat(n) }

  function PrintBare(v: Bare): string {
    match v
    case Integer(n) => PrintInt(n)
    case Str(s) => Quote(s)
    case Token(t) => t
    case True => "?1"
  }

  /** The parameters that say something. */
  function Params(p: Status): seq<Param> {
    (if p.err != "" then [Param("error", Token(p.err))] else []) +
    (if p.nextHop != "" then [Param("next-hop", Str(p.nextHop))] else []) +
    (if p.received != 0 then [Param("received-status", Integer(p.received))] else []) +
    (if p.details != "" then [Param("details", Str(p.details))] else [])
  }

  function PrintParam(p: Param): string { "; " + (p.key + ("=" + PrintBare(p.value))) }

  function PrintParams(params: seq<Param>): string {
    if params == [] then "" else PrintParam(params[0]) + PrintParams(params[1..])
  }

  function Print(p: Status): string { "tip" + PrintParams(Params(p)) }

  lemma {:induction false} PrintParamsAppend(params: seq<Param>, p: Param)
    ensures PrintParams(params + [p]) == PrintParams(params) + PrintParam(p)
  {
    if params == [] {
      assert [p][1..] == [] && [] + [p] == [p];
    } else {
      PrintParamsAppend(params[1..], p);
      assert (params + [p])[1..] == params[1..] + [p];
      Joins(PrintParam(params[0]), PrintParams(params[1..]), PrintParam(p));
    }
  }

  /** Appends one parameter's text. */
  method Append(b: string, ghost params: seq<Param>, key: string, value: Bare, text: string) returns (b': string)
    requires b == "tip" + PrintParams(params) && text == PrintBare(value)
    ensures b' == "tip" + PrintParams(params + [Param(key, value)])
  {
    PrintParamsAppend(params, Param(key, value));
    b' := b + ("; " + (key + ("=" + text)));
  }

  lemma NothingPrints(b: string)
    ensures b + PrintParams([]) == b
  {
  }

  /** The entry, piece by piece. */
  method String(p: Status) returns (b: string)
    ensures b == Print(p)
  {
    hide PrintParams;
    b := "tip";
    ghost var params := [];
    NothingPrints(b);
    if p.err != "" {
      b := Append(b, params, "error", Token(p.err), p.err);
      params := params + [Param("error", Token(p.err))];
    }
    if p.nextHop != "" {
      var quoted := SfString(p.nextHop);
      b := Append(b, params, "next-hop", Str(p.nextHop), quoted);
      params := params + [Param("next-hop", Str(p.nextHop))];
    }
    if p.received != 0 {
      b := Append(b, params, "received-status", Integer(p.received), PrintInt(p.received));
      params := params + [Param("received-status", Integer(p.received))];
    }
    if p.details != "" {
      var quoted := SfString(p.details);
      b := Append(b, params, "details", Str(p.details), quoted);
      params := params + [Param("details", Str(p.details))];
    }
    assert params == Params(p);
  }

  // The parser

  predicate IsLower(c: char) { 'a' <= c <= 'z' }
  predicate IsAlpha(c: char) { IsLower(c) || 'A' <= c <= 'Z' }

  /** Section 3.3.4, and tchar of RFC 9110, section 5.6.2. */
  predicate IsTokenChar(c: char) {
    IsAlpha(c) || IsDigit(c) || c == '!' || '#' <= c <= '\'' || c == '*' || c == '+' || '-' <= c <= '/' || c == ':' ||
    '^' <= c <= '`' || c == '|' || c == '~'
  }
  predicate StartsToken(c: char) { IsAlpha(c) || c == '*' }

  /** Section 3.1.2. */
  predicate IsKeyChar(c: char) { IsLower(c) || IsDigit(c) || c == '_' || c == '-' || c == '.' || c == '*' }
  predicate StartsKey(c: char) { IsLower(c) || c == '*' }

  /** The longest run of characters that satisfy f. */
  function ReadRun(f: char -> bool, s: string): (r: Read<string>)
    ensures r.value + r.rest == s && (forall c :: c in r.value ==> f(c)) && (r.rest == "" || !f(r.rest[0]))
  {
    if s != "" && f(s[0]) then
      var more := ReadRun(f, s[1..]);
      Read([s[0]] + more.value, more.rest)
    else Read("", s)
  }

  /** Section 4.2.4, integers only: at most fifteen digits. */
  function ParseInteger(s: string): (r: Option<Read<Bare>>)
    ensures r.Some? ==> |r.value.rest| < |s|
  {
    var negative := s != "" && s[0] == '-';
    var t := if negative then s[1..] else s;
    if t == "" || !IsDigit(t[0]) then None
    else
      var n := ReadDigits(0, t);
      if |t| - |n.rest| > 15 || (n.rest != "" && n.rest[0] == '.') then None
      else Some(Read(Integer(if negative then 0 - n.value else n.value), n.rest))
  }

  /** Section 4.2.5, after the opening quote. */
  function ParseString(s: string): (r: Option<Read<string>>)
    ensures r.Some? ==> |r.value.rest| < |s|
  {
    if s == "" then None
    else if s[0] == '"' then Some(Read("", s[1..]))
    else if s[0] == '\\' then
      if |s| < 2 || (s[1] != '"' && s[1] != '\\') then None
      else
        var more := ParseString(s[2..]);
        if more.None? then None else Some(Read([s[1]] + more.value.value, more.value.rest))
    else if !Printable(s[0]) then None
    else
      var more := ParseString(s[1..]);
      if more.None? then None else Some(Read([s[0]] + more.value.value, more.value.rest))
  }

  /** Section 4.2.3.1, for the types of value that an entry holds. */
  function ParseBare(s: string): (r: Option<Read<Bare>>)
    ensures r.Some? ==> |r.value.rest| < |s|
  {
    if s == "" then None
    else if s[0] == '-' || IsDigit(s[0]) then ParseInteger(s)
    else if s[0] == '"' then
      var t := ParseString(s[1..]);
      if t.None? then None else Some(Read(Str(t.value.value), t.value.rest))
    else if StartsToken(s[0]) then
      var t := ReadRun(IsTokenChar, s[1..]);
      Some(Read(Token([s[0]] + t.value), t.rest))
    else None
  }

  function SkipSpaces(s: string): (r: string)
    ensures |r| <= |s|
  {
    if s != "" && s[0] == ' ' then SkipSpaces(s[1..]) else s
  }

  /** A parameter given twice keeps its place and takes the later value. */
  function Put(params: seq<Param>, p: Param): seq<Param> {
    if params == [] then [p]
    else if params[0].key == p.key then [p] + params[1..]
    else [params[0]] + Put(params[1..], p)
  }

  /** Section 4.2.3.2, with the parameters read so far. */
  function ParseParams(params: seq<Param>, s: string): Option<Read<seq<Param>>>
    decreases |s|
  {
    if s == "" || s[0] != ';' then Some(Read(params, s))
    else
      var t := SkipSpaces(s[1..]);
      if t == "" || !StartsKey(t[0]) then None
      else
        var key := ReadRun(IsKeyChar, t[1..]);
        var value := if key.rest != "" && key.rest[0] == '=' then ParseBare(key.rest[1..])
          else Some(Read(True, key.rest));
        if value.None? then None
        else ParseParams(Put(params, Param([t[0]] + key.value, value.value.value)), value.value.rest)
  }

  /** Section 4.2.3, for a field whose whole value is one entry. */
  function Parse(s: string): Option<Item> {
    var bare := ParseBare(SkipSpaces(s));
    if bare.None? then None
    else
      var params := ParseParams([], bare.value.rest);
      if params.None? || SkipSpaces(params.value.rest) != "" then None
      else Some(Item(bare.value.value, params.value.value))
  }

  // The parser reads back what the printer wrote

  const FIFTEEN_DIGITS: int := 1_000_000_000_000_000

  predicate IsToken(s: string) {
    s != "" && StartsToken(s[0]) && forall i :: 0 < i < |s| ==> IsTokenChar(s[i])
  }

  /** The values that have a form in a Structured Field; a string has one whatever it holds. */
  predicate Readable(v: Bare) {
    match v
    case Integer(n) => -FIFTEEN_DIGITS < n < FIFTEEN_DIGITS
    case Str(_) => true
    case Token(t) => IsToken(t)
    case True => false
  }

  function Seen(v: Bare): Bare { if v.Str? then Str(ShownAll(v.text)) else v }

  function SeenParams(params: seq<Param>): seq<Param> {
    if params == [] then [] else [params[0].(value := Seen(params[0].value))] + SeenParams(params[1..])
  }

  /** What may follow a value: nothing, or another parameter. */
  predicate Ends(rest: string) { rest == "" || rest[0] == ';' }

  lemma EscapeReads(c: char, more: string)
    ensures ParseString(Escape(c) + more) ==
            if ParseString(more).None? then None
            else Some(Read([Shown(c)] + ParseString(more).value.value, ParseString(more).value.rest))
  {
    assert (Escape(c) + more)[|Escape(c)|..] == more;
  }

  lemma {:induction false} StringReads(s: string, rest: string)
    ensures ParseString(EscapeAll(s) + ("\"" + rest)) == Some(Read(ShownAll(s), rest))
  {
    var tail := "\"" + rest;
    if s == "" {
      assert EscapeAll(s) + tail == tail && tail[1..] == rest;
    } else {
      StringReads(s[1..], rest);
      EscapeReads(s[0], EscapeAll(s[1..]) + tail);
      hide ParseString;
      hide Escape;
      Joins(Escape(s[0]), EscapeAll(s[1..]), tail);
    }
  }

  lemma {:induction false} RunReads(f: char -> bool, s: string, rest: string)
    requires (forall c :: c in s ==> f(c)) && (rest == "" || !f(rest[0]))
    ensures ReadRun(f, s + rest) == Read(s, rest)
  {
    if s == "" {
      assert s + rest == rest;
    } else {
      RunReads(f, s[1..], rest);
      assert (s + rest)[1..] == s[1..] + rest && [s[0]] + s[1..] == s;
    }
  }

  function Pow10(k: nat): nat { if k == 0 then 1 else 10 * Pow10(k - 1) }

  lemma FifteenDigits()
    ensures Pow10(15) == FIFTEEN_DIGITS
  {
    assert Pow10(5) == 100_000;
    assert Pow10(10) == 10_000_000_000;
  }

  lemma {:induction false} PrintNatLength(n: nat, k: nat)
    requires 1 <= k && n < Pow10(k)
    ensures |PrintNat(n)| <= k
  {
    if n >= 10 {
      assert k > 1 by {
        assert Pow10(1) == 10;
      }
      PrintNatLength(n / 10, k - 1);
    }
  }

  lemma NatReads(m: nat, rest: string)
    requires m < FIFTEEN_DIGITS && Ends(rest)
    ensures var t := PrintNat(m) + rest;
            t != "" && IsDigit(t[0]) && ReadDigits(0, t) == Read(m, rest) && |t| - |rest| <= 15
  {
    hide PrintNat;
    hide Pow10;
    PrintNatStarts(m);
    DigitsRead(0, m, rest);
    PushedOnNothing(m);
    FifteenDigits();
    PrintNatLength(m, 15);
  }

  lemma IntegerReads(n: int, rest: string)
    requires Readable(Integer(n)) && Ends(rest)
    ensures ParseBare(PrintInt(n) + rest) == Some(Read(Integer(n), rest))
  {
    hide PrintNat;
    hide ReadDigits;
    if n < 0 {
      NatReads(-n, rest);
      Joins("-", PrintNat(-n), rest);
      Drops('-', PrintNat(-n) + rest);
    } else {
      NatReads(n, rest);
    }
  }

  lemma TokenReads(t: string, rest: string)
    requires IsToken(t) && Ends(rest)
    ensures ParseBare(t + rest) == Some(Read(Token(t), rest))
  {
    assert forall c :: c in t[1..] ==> IsTokenChar(c);
    RunReads(IsTokenChar, t[1..], rest);
    hide ReadRun;
    HeadAndTail(t, rest);
    Uncut(t);
  }

  lemma QuoteReads(t: string, rest: string)
    ensures ParseBare(Quote(t) + rest) == Some(Read(Str(ShownAll(t)), rest))
  {
    StringReads(t, rest);
    assert (Quote(t) + rest)[1..] == EscapeAll(t) + ("\"" + rest);
  }

  lemma BareReads(v: Bare, rest: string)
    requires Readable(v) && Ends(rest)
    ensures ParseBare(PrintBare(v) + rest) == Some(Read(Seen(v), rest))
  {
    match v
    case Integer(n) => IntegerReads(n, rest);
    case Str(t) => QuoteReads(t, rest);
    case Token(t) => TokenReads(t, rest);
  }

  predicate IsKey(s: string) {
    s != "" && StartsKey(s[0]) && forall c :: c in s[1..] ==> IsKeyChar(c)
  }

  lemma ParamText(p: Param, rest: string)
    ensures PrintParam(p) + rest == ";" + (" " + (p.key + ("=" + (PrintBare(p.value) + rest))))
  {
  }

  lemma SpaceSkips(t: string)
    requires t != "" && t[0] != ' '
    ensures SkipSpaces(" " + t) == t
  {
    Drops(' ', t);
  }

  lemma KeyUnfolds(done: seq<Param>, s: string, t: string, key: string, after: string)
    requires s != "" && s[0] == ';' && SkipSpaces(s[1..]) == t && t != "" && StartsKey(t[0])
    requires ReadRun(IsKeyChar, t[1..]) == Read(key, after) && after != "" && after[0] == '=' &&
             ParseBare(after[1..]).Some?
    ensures var v := ParseBare(after[1..]).value;
            ParseParams(done, s) == ParseParams(Put(done, Param([t[0]] + key, v.value)), v.rest)
  {
  }

  lemma KeyReads(done: seq<Param>, key: string, v: Bare, text: string, rest: string)
    requires IsKey(key) && ParseBare(text) == Some(Read(v, rest))
    ensures ParseParams(done, ";" + (" " + (key + ("=" + text)))) == ParseParams(Put(done, Param(key, v)), rest)
  {
    var t, after := key + ("=" + text), "=" + text;
    RunReads(IsKeyChar, key[1..], after);
    hide ReadRun;
    hide ParseBare;
    hide Put;
    Drops(';', " " + t);
    Drops('=', text);
    HeadAndTail(key, after);
    Uncut(key);
    SpaceSkips(t);
    hide SkipSpaces;
    hide ParseParams;
    KeyUnfolds(done, ";" + (" " + t), t, key[1..], after);
  }

  lemma ParamReads(done: seq<Param>, p: Param, rest: string)
    requires IsKey(p.key) && Readable(p.value) && Ends(rest)
    ensures ParseParams(done, PrintParam(p) + rest) == ParseParams(Put(done, p.(value := Seen(p.value))), rest)
  {
    BareReads(p.value, rest);
    ParamText(p, rest);
    KeyReads(done, p.key, Seen(p.value), PrintBare(p.value) + rest, rest);
  }

  lemma {:induction false} PutNew(params: seq<Param>, p: Param)
    requires forall q :: q in params ==> q.key != p.key
    ensures Put(params, p) == params + [p]
  {
    if params != [] {
      PutNew(params[1..], p);
    }
  }

  ghost predicate Fit(done: seq<Param>, params: seq<Param>) {
    (forall p :: p in params ==> IsKey(p.key) && Readable(p.value)) &&
    (forall i, j :: 0 <= i < j < |params| ==> params[i].key != params[j].key) &&
    forall p, q :: p in done && q in params ==> p.key != q.key
  }

  lemma ParamsEnd(params: seq<Param>)
    ensures Ends(PrintParams(params))
  {
  }

  lemma FitNext(done: seq<Param>, params: seq<Param>, p: Param)
    requires Fit(done, params) && params != [] && p == params[0].(value := Seen(params[0].value))
    ensures IsKey(params[0].key) && Readable(params[0].value) && Fit(done + [p], params[1..])
    ensures forall q :: q in done ==> q.key != p.key
  {
    hide IsKey;
    hide Readable;
    assert forall q :: q in done + [p] ==> q in done || q == p;
  }

  lemma {:induction false} ParamsRead(done: seq<Param>, params: seq<Param>)
    requires Fit(done, params)
    ensures ParseParams(done, PrintParams(params)) == Some(Read(done + SeenParams(params), ""))
    decreases |params|
  {
    if params == [] {
      assert done + [] == done;
    } else {
      var p := params[0].(value := Seen(params[0].value));
      FitNext(done, params, p);
      hide ParseParams;
      hide PrintParam;
      hide Put;
      hide Fit;
      hide Seen;
      ParamsEnd(params[1..]);
      ParamReads(done, params[0], PrintParams(params[1..]));
      PutNew(done, p);
      ParamsRead(done + [p], params[1..]);
      Joins(done, [p], SeenParams(params[1..]));
    }
  }

  /** An entry that can be written: `error` is a token and the status has at most fifteen digits. */
  predicate Valid(p: Status) {
    (p.err == "" || IsToken(p.err)) && -FIFTEEN_DIGITS < p.received < FIFTEEN_DIGITS
  }

  lemma ShortNamesAreKeys()
    ensures IsKey("error") && IsKey("details")
  {
  }

  lemma LongNamesAreKeys()
    ensures IsKey("next-hop") && IsKey("received-status")
  {
  }

  lemma NamesAreKeys(p: Status)
    ensures forall q :: q in Params(p) ==> IsKey(q.key)
  {
    hide IsKey;
    ShortNamesAreKeys();
    LongNamesAreKeys();
  }

  /** The names are of different lengths. */
  lemma NamesDiffer(p: Status)
    ensures var l := Params(p); forall i, j :: 0 <= i < j < |l| ==> l[i].key != l[j].key
  {
    var l := Params(p);
    assert forall i, j :: 0 <= i < j < |l| ==> |l[i].key| != |l[j].key|;
  }

  lemma ParamsFit(p: Status)
    requires Valid(p)
    ensures Fit([], Params(p))
  {
    hide IsKey;
    hide IsToken;
    NamesAreKeys(p);
    NamesDiffer(p);
  }

  lemma TipReads(rest: string)
    requires Ends(rest)
    ensures SkipSpaces("tip" + rest) == "tip" + rest && ParseBare("tip" + rest) == Some(Read(Token("tip"), rest))
  {
    BareReads(Token("tip"), rest);
  }

  /** A reader recovers `tip` and exactly the parameters that say something, whatever the texts hold: quotes,
      backslashes and semicolons read back as themselves, and what is not printable as a question mark. */
  lemma EntryReads(p: Status)
    requires Valid(p)
    ensures Parse(Print(p)) == Some(Item(Token("tip"), SeenParams(Params(p))))
  {
    hide ParseParams;
    hide PrintParams;
    ParamsFit(p);
    ParamsRead([], Params(p));
    ParamsEnd(Params(p));
    TipReads(PrintParams(Params(p)));
    assert [] + SeenParams(Params(p)) == SeenParams(Params(p));
  }

  // The parser yields nothing that could not be written

  lemma Shifts(n: nat, m: nat, scale: nat)
    requires m < 10 * n + 10
    ensures (m + 1) * scale <= (n + 1) * (10 * scale)
  {
    var a, d := m + 1, 10 * n + 9 - m;
    assert d * scale >= 0;
    assert (a + d) * scale == a * scale + d * scale;
    assert (n + 1) * (10 * scale) == (a + d) * scale;
  }

  lemma {:induction false} DigitsBound(n: nat, s: string)
    ensures ReadDigits(n, s).value < (n + 1) * Pow10(|s| - |ReadDigits(n, s).rest|)
    decreases |s|
  {
    if s != "" && IsDigit(s[0]) {
      var m := 10 * n + (s[0] - '0') as nat;
      DigitsBound(m, s[1..]);
      var k := |s| - |ReadDigits(n, s).rest|;
      Shifts(n, m, Pow10(k - 1));
    }
  }

  lemma {:induction false} Pow10Grows(j: nat, k: nat)
    requires j <= k
    ensures Pow10(j) <= Pow10(k)
  {
    if j < k {
      Pow10Grows(j, k - 1);
    }
  }

  lemma BareIsReadable(s: string)
    requires ParseBare(s).Some?
    ensures Readable(ParseBare(s).value.value)
  {
    if s[0] == '-' || IsDigit(s[0]) {
      var t := if s[0] == '-' then s[1..] else s;
      DigitsBound(0, t);
      Pow10Grows(|t| - |ReadDigits(0, t).rest|, 15);
      FifteenDigits();
    } else if StartsToken(s[0]) {
      var run := ReadRun(IsTokenChar, s[1..]).value;
      assert ([s[0]] + run)[1..] == run;
    }
  }

  lemma {:induction false} PutHolds(params: seq<Param>, p: Param)
    ensures forall q :: q in Put(params, p) ==> q == p || q in params
  {
    if params != [] && params[0].key != p.key {
      PutHolds(params[1..], p);
    }
  }

  lemma {:induction false} ParsedIsReadable(done: seq<Param>, s: string, p: Param)
    requires ParseParams(done, s).Some? && p in ParseParams(done, s).value.value
    ensures p in done || p.value.True? || Readable(p.value)
    decreases |s|
  {
    if s != "" && s[0] == ';' {
      var t := SkipSpaces(s[1..]);
      var key := ReadRun(IsKeyChar, t[1..]);
      if key.rest != "" && key.rest[0] == '=' {
        var v := ParseBare(key.rest[1..]).value;
        BareIsReadable(key.rest[1..]);
        PutHolds(done, Param([t[0]] + key.value, v.value));
        ParsedIsReadable(Put(done, Param([t[0]] + key.value, v.value)), v.rest, p);
      } else {
        PutHolds(done, Param([t[0]] + key.value, True));
        ParsedIsReadable(Put(done, Param([t[0]] + key.value, True)), key.rest, p);
      }
    }
  }

  lemma {:induction false} SeenIn(params: seq<Param>, p: Param)
    requires p in params
    ensures p.(value := Seen(p.value)) in SeenParams(params)
  {
    if params[0] != p {
      SeenIn(params[1..], p);
    }
  }

  /** Exactly when an entry survives the journey: its error type is a token and its status fits. */
  lemma EntryReadsExactly(p: Status)
    ensures Parse(Print(p)) == Some(Item(Token("tip"), SeenParams(Params(p)))) <==> Valid(p)
  {
    if Valid(p) {
      EntryReads(p);
    } else if Parse(Print(p)) == Some(Item(Token("tip"), SeenParams(Params(p)))) {
      var bad := if p.err != "" && !IsToken(p.err) then Param("error", Token(p.err))
        else Param("received-status", Integer(p.received));
      SeenIn(Params(p), bad);
      ParsedIsReadable([], ParseBare(SkipSpaces(Print(p))).value.rest, bad);
    }
  }

  // The error types

  /** What can be asked of a failed request's error: whether it is, or wraps, or says one of these. */
  datatype Facts = Facts(dns: bool, refused: bool, unroutable: bool, certificate: bool, alert: bool,
                         unexpectedEof: bool)

  const PHASE_TLS := "proxy-tls"

  function DialErrorType(f: Facts): string {
    if f.dns then "dns_error"
    else if f.refused then "connection_refused"
    else if f.unroutable then "destination_ip_unroutable"
    else "destination_unavailable"
  }

  function TlsErrorType(f: Facts): string {
    if f.certificate then "tls_certificate_error"
    else if f.alert then "tls_alert_received"
    else "tls_protocol_error"
  }

  function ErrorType(kind: string, phase: string, connected: bool, f: Facts): string {
    if kind == "timeout" then if phase != "" || !connected then "connection_timeout" else "http_response_timeout"
    else if kind == "proxy_rejected" then "http_request_error"
    else if kind == "tls" then TlsErrorType(f)
    else if kind == "dial" || kind == "proxy" then if phase == PHASE_TLS then TlsErrorType(f) else DialErrorType(f)
    else if f.unexpectedEof then "http_response_incomplete"
    else "connection_terminated"
  }

  lemma DialTypeIsToken(f: Facts)
    ensures IsToken(DialErrorType(f))
  {
  }

  lemma TlsTypeIsToken(f: Facts)
    ensures IsToken(TlsErrorType(f))
  {
  }

  lemma TimeoutIsToken()
    ensures IsToken("connection_timeout")
  {
  }

  lemma TerminatedIsToken()
    ensures IsToken("connection_terminated")
  {
  }

  lemma RequestErrorIsToken()
    ensures IsToken("http_request_error")
  {
  }

  lemma ResponseTimeoutIsToken()
    ensures IsToken("http_response_timeout")
  {
  }

  lemma IncompleteIsToken()
    ensures IsToken("http_response_incomplete")
  {
  }

  lemma PlainTypesAreTokens()
    ensures IsToken("connection_timeout") && IsToken("connection_terminated") && IsToken("http_request_error") &&
            IsToken("http_response_timeout") && IsToken("http_response_incomplete")
  {
    hide IsToken;
    TimeoutIsToken();
    TerminatedIsToken();
    RequestErrorIsToken();
    ResponseTimeoutIsToken();
    IncompleteIsToken();
  }

  lemma ErrorTypeIsToken(kind: string, phase: string, connected: bool, f: Facts)
    ensures IsToken(ErrorType(kind, phase, connected, f))
  {
    PlainTypesAreTokens();
    DialTypeIsToken(f);
    TlsTypeIsToken(f);
  }

  lemma TypesHaveNoSlash(f: Facts)
    ensures '/' !in DialErrorType(f) && '/' !in TlsErrorType(f)
  {
    assert '/' !in "dns_error" && '/' !in "connection_refused" && '/' !in "destination_ip_unroutable";
  }

  lemma ErrorTypeHasNoSlash(kind: string, phase: string, connected: bool, f: Facts)
    ensures '/' !in ErrorType(kind, phase, connected, f)
  {
    TypesHaveNoSlash(f);
    hide DialErrorType;
    hide TlsErrorType;
    assert '/' !in "connection_timeout" && '/' !in "http_response_timeout";
  }

  /** The entry of a failed request is read back whatever failed, wherever it was going and whatever the hop
      answered. */
  lemma FailureReads(kind: string, phase: string, connected: bool, f: Facts, nextHop: string, received: int,
                     line: string)
    requires 0 <= received < 1000
    ensures var p := Status(ErrorType(kind, phase, connected, f), nextHop, received, line);
            Parse(Print(p)) == Some(Item(Token("tip"), SeenParams(Params(p))))
  {
    ErrorTypeIsToken(kind, phase, connected, f);
    EntryReads(Status(ErrorType(kind, phase, connected, f), nextHop, received, line));
  }

  /** What a reader finds under a key. */
  function Under(params: seq<Param>, key: string): Option<Bare> {
    if params == [] then None else if params[0].key == key then Some(params[0].value) else Under(params[1..], key)
  }

  /** A text as a reader gets it. */
  ghost predicate ReadsAs(t: string, s: string) {
    |t| == |s| && forall i :: 0 <= i < |s| ==> t[i] == if ' ' <= s[i] <= '~' then s[i] else '?'
  }

  lemma {:induction false} SeenJoins(a: seq<Param>, b: seq<Param>)
    ensures SeenParams(a + b) == SeenParams(a) + SeenParams(b)
  {
    if a == [] {
      assert a + b == b;
    } else {
      SeenJoins(a[1..], b);
      HeadAndTail(a, b);
    }
  }

  lemma {:induction false} UnderJoins(a: seq<Param>, b: seq<Param>, key: string)
    ensures Under(a + b, key) == if Under(a, key).Some? then Under(a, key) else Under(b, key)
  {
    if a == [] {
      assert a + b == b;
    } else {
      UnderJoins(a[1..], b, key);
      HeadAndTail(a, b);
    }
  }

  lemma UnderOne(present: bool, key: string, v: Bare, other: string)
    ensures Under(SeenParams(if present then [Param(key, v)] else []), other) ==
              if present && other == key then Some(Seen(v)) else None
  {
    assert [Param(key, v)][1..] == [];
  }

  lemma UnderFields(p: Status, key: string)
    ensures Under(SeenParams(Params(p)), key) ==
              if p.err != "" && key == "error" then Some(Token(p.err))
              else if p.nextHop != "" && key == "next-hop" then Some(Str(ShownAll(p.nextHop)))
              else if p.received != 0 && key == "received-status" then Some(Integer(p.received))
              else if p.details != "" && key == "details" then Some(Str(ShownAll(p.details)))
              else None
  {
    var a := if p.err != "" then [Param("error", Token(p.err))] else [];
    var b := if p.nextHop != "" then [Param("next-hop", Str(p.nextHop))] else [];
    var c := if p.received != 0 then [Param("received-status", Integer(p.received))] else [];
    var d := if p.details != "" then [Param("details", Str(p.details))] else [];
    UnderOne(p.err != "", "error", Token(p.err), key);
    UnderOne(p.nextHop != "", "next-hop", Str(p.nextHop), key);
    UnderOne(p.received != 0, "received-status", Integer(p.received), key);
    UnderOne(p.details != "", "details", Str(p.details), key);
    assert Params(p) == a + b + c + d;
    hide Params;
    hide Under;
    hide SeenParams;
    hide ShownAll;
    SeenJoins(a + b + c, d);
    SeenJoins(a + b, c);
    SeenJoins(a, b);
    UnderJoins(SeenParams(a + b + c), SeenParams(d), key);
    UnderJoins(SeenParams(a + b), SeenParams(c), key);
    UnderJoins(SeenParams(a), SeenParams(b), key);
  }

  /** A reader finds each field of the status under its own key, the texts with their unprintable characters as question
      marks, and nothing under the key of a field that says nothing. */
  lemma FieldsAreRead(p: Status) returns (params: seq<Param>)
    requires Valid(p)
    ensures Parse(Print(p)) == Some(Item(Token("tip"), params))
    ensures Under(params, "error") == if p.err == "" then None else Some(Token(p.err))
    ensures Under(params, "received-status") == if p.received == 0 then None else Some(Integer(p.received))
    ensures match Under(params, "next-hop")
            case Some(Str(t)) => p.nextHop != "" && ReadsAs(t, p.nextHop)
            case None => p.nextHop == ""
            case _ => false
    ensures match Under(params, "details")
            case Some(Str(t)) => p.details != "" && ReadsAs(t, p.details)
            case None => p.details == ""
            case _ => false
  {
    EntryReads(p);
    params := SeenParams(Params(p));
    UnderFields(p, "error");
    UnderFields(p, "next-hop");
    UnderFields(p, "received-status");
    UnderFields(p, "details");
    hide Params;
    hide Under;
    hide SeenParams;
    hide Parse;
    hide Print;
    hide Valid;
  }

  /** A text is quoted rune by rune: a quote and a backslash behind a backslash, what is not printable as a question
      mark. */
  lemma {:induction false} RunesAreQuoted(a: string, b: string, c: char)
    ensures Quote(a) == "\"" + EscapeAll(a) + "\"" && EscapeAll("") == "" &&
            EscapeAll(a + b) == EscapeAll(a) + EscapeAll(b)
    ensures EscapeAll([c]) == if c == '"' then "\\\"" else if c == '\\' then "\\\\" else if ' ' <= c <= '~' then [c]
            else "?"
  {
    if a == "" {
      assert a + b == b;
    } else {
      RunesAreQuoted(a[1..], b, c);
      HeadAndTail(a, b);
      Joins(Escape(a[0]), EscapeAll(a[1..]), EscapeAll(b));
    }
  }
}
