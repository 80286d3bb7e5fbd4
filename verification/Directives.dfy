/** Parsing a request's directives under a policy: shaping each header, merging the policy's defaults, and
    validating. */
module Directives {
  import opened HostPatterns
  import opened Options
  import opened Texts

  type Header = map<string, seq<string>>

  /** A directive's value before validation. */
  datatype Shaped = Scalar(text: string) | List(items: seq<string>) | Pairs(values: map<string, string>,
      order: seq<string>)

  /** What libraries decide: whether a directive's value is valid, what a boolean says, how a text reads as cookies, and
      where a proxy URL points. */
  datatype Rules = Rules(
    valid: (string, Shaped) -> bool, truth: Shaped -> bool, cookies: string -> Option<seq<(string, string)>>,
    site: Shaped -> Option<Site>)

  datatype Issue = Unknown(name: string) | Denied(key: string) | Misshaped(key: string) | Invalid(key: string) | Clash
    | NeedsProxy | ForeignProxy

  datatype Directive = Directive(fields: map<string, Shaped>, fromRequest: set<string>)

  datatype Result<+T> = Ok(value: T) | Err(issues: seq<Issue>)

  datatype Policy = Policy(defaults: map<string, Shaped>, deny: set<string>, proxyHosts: seq<string>,
                           requireProxy: bool)

  const OPEN := Policy(map[], {}, [], false)

  const PREFIX := "x-tip-"

  const KNOWN: set<string> := {
    "browser", "os", "ja", "http2settings", "http3settings", "forcehttp", "proxy", "timeout", "dns", "dnsovertls",
    "interfaceaddr",
    "securetls", "disablekeepalive", "h2c", "scheme", "keep", "match", "profile" }

  const HTTP2_KEYS: set<string> := {
    "headertablesize", "enablepush", "maxconcurrentstreams", "initialwindowsize", "maxframesize", "maxheaderlistsize",
    "norfc7540priorities", "connectionflow", "initialstreamid" }

  const HTTP3_KEYS: set<string> := {
    "qpackmaxtablecapacity", "maxfieldsectionsize", "qpackblockedstreams", "enableconnectprotocol",
    "settingsh3datagram",
    "h3datagram", "enablewebtransport", "grease" }

  predicate HasPrefix(name: string) { |name| >= |PREFIX| && Lower(name[..|PREFIX|]) == PREFIX }

  function KeyOf(name: string): string
    requires HasPrefix(name)
  {
    Lower(name[|PREFIX|..])
  }

  /** No two names are equal but for case, and each has a value, as in a canonical header. */
  ghost predicate Canonical(h: Header) {
    (forall m, n :: m in h && n in h && Lower(m) == Lower(n) ==> m == n) && forall n :: n in h ==> h[n] != []
  }

  // Shaping

  predicate IsSpace(c: char) {
    '\t' <= c <= '\r' || c == ' ' || c == 0x85 as char || c == 0xA0 as char || c == 0x1680 as char ||
    0x2000 as char <= c <= 0x200A as char || c == 0x2028 as char || c == 0x2029 as char || c == 0x202F as char ||
    c == 0x205F as char || c == 0x3000 as char
  }

  predicate IsBlank(s: string) { forall c :: c in s ==> IsSpace(c) }

  /** The white space of textproto.TrimString. */
  predicate IsAsciiSpace(c: char) { c == ' ' || c == '\t' || c == '\n' || c == '\r' }

  function Trim(s: string): string
    decreases |s|
  {
    if s != "" && IsAsciiSpace(s[0]) then Trim(s[1..])
    else if s != "" && IsAsciiSpace(s[|s| - 1]) then Trim(s[..|s| - 1])
    else s
  }

  function Tokens(parts: seq<string>): seq<string> {
    if parts == [] then [] else [Lower(Trim(parts[0]))] + Tokens(parts[1..])
  }

  lemma {:induction false} TokensAppend(parts: seq<string>, part: string)
    ensures Tokens(parts + [part]) == Tokens(parts) + [Lower(Trim(part))]
  {
    if parts != [] {
      TokensAppend(parts[1..], part);
      assert (parts + [part])[1..] == parts[1..] + [part];
    } else {
      assert [part][1..] == [] && [] + [part] == [part];
    }
  }

  method SplitList(raw: string) returns (out: seq<string>)
    ensures out == Tokens(Split(raw, ','))
  {
    var parts := Split(raw, ',');
    out := [];
    for i := 0 to |parts|
      invariant out == Tokens(parts[..i])
    {
      TokensAppend(parts[..i], parts[i]);
      assert parts[..i + 1] == parts[..i] + [parts[i]];
      out := out + [Lower(Trim(parts[i]))];
    }
    assert parts[..|parts|] == parts;
  }

  function Allowed(key: string): set<string> { if key == "http2settings" then HTTP2_KEYS else HTTP3_KEYS }

  /** The names of the pairs, in lower case. */
  function NamesOf(pairs: seq<(string, string)>): seq<string> {
    if pairs == [] then [] else NamesOf(pairs[..|pairs| - 1]) + [Lower(pairs[|pairs| - 1].0)]
  }

  function ValuesOf(pairs: seq<(string, string)>): map<string, string> {
    if pairs == [] then map[] else ValuesOf(pairs[..|pairs| - 1])[Lower(pairs[|pairs| - 1].0) := pairs[|pairs| - 1].1]
  }

  /** Every name is allowed for the key, and given once. */
  predicate PairsFit(key: string, pairs: seq<(string, string)>) {
    pairs == [] ||
    (var front, name := pairs[..|pairs| - 1], Lower(pairs[|pairs| - 1].0);
     PairsFit(key, front) && name in Allowed(key) && name !in ValuesOf(front))
  }

  function ShapePairs(rules: Rules, key: string, raw: string): Option<Shaped> {
    var pairs := rules.cookies(raw);
    if pairs.Some? && PairsFit(key, pairs.value) then Some(Pairs(ValuesOf(pairs.value), NamesOf(pairs.value))) else None
  }

  lemma {:induction false} FitPrefix(key: string, pairs: seq<(string, string)>, i: nat)
    requires PairsFit(key, pairs) && i <= |pairs|
    ensures PairsFit(key, pairs[..i])
    decreases |pairs|
  {
    if i < |pairs| {
      FitPrefix(key, pairs[..|pairs| - 1], i);
      assert pairs[..|pairs| - 1][..i] == pairs[..i];
    } else {
      assert pairs[..i] == pairs;
    }
  }

  method ParsePairs(rules: Rules, key: string, raw: string) returns (r: Option<Shaped>)
    ensures r == ShapePairs(rules, key, raw)
  {
    var read := rules.cookies(raw);
    if read.None? {
      return None;
    }
    var pairs := read.value;
    var out: map<string, string> := map[];
    var order: seq<string> := [];
    for i := 0 to |pairs|
      invariant PairsFit(key, pairs[..i]) && out == ValuesOf(pairs[..i]) && order == NamesOf(pairs[..i])
    {
      var name := Lower(pairs[i].0);
      assert pairs[..i + 1][..i] == pairs[..i];
      if name !in Allowed(key) || name in out {
        if PairsFit(key, pairs) {
          FitPrefix(key, pairs, i + 1);
        }
        return None;
      }
      out := out[name := pairs[i].1];
      order := order + [name];
    }
    assert pairs[..|pairs|] == pairs;
    r := Some(Pairs(out, order));
  }

  predicate IsList(key: string) { key == "browser" || key == "os" || key == "keep" }

  predicate IsPairs(key: string) { key == "http2settings" || key == "http3settings" }

  function Shape(rules: Rules, key: string, values: seq<string>): Option<Shaped>
    requires values != []
  {
    if IsList(key) then
      if IsBlank(Join(values, ',')) then None else Some(List(Tokens(Split(Join(values, ','), ','))))
    else if IsPairs(key) then ShapePairs(rules, key, Join(values, ';'))
    else if |values| > 1 || IsBlank(values[0]) then None
    else Some(Scalar(values[0]))
  }

  method ShapeValue(rules: Rules, key: string, values: seq<string>) returns (r: Option<Shaped>)
    requires values != []
    ensures r == Shape(rules, key, values)
  {
    if IsList(key) {
      var raw := Join(values, ',');
      if IsBlank(raw) {
        return None;
      }
      var items := SplitList(raw);
      return Some(List(items));
    }
    if IsPairs(key) {
      r := ParsePairs(rules, key, Join(values, ';'));
      return;
    }
    if |values| > 1 || IsBlank(values[0]) {
      return None;
    }
    r := Some(Scalar(values[0]));
  }

  // What the shapes mean

  /** The pieces of every header line, trimmed and in lower case, one line after another. */
  function Pieces(values: seq<string>): seq<string> {
    if values == [] then [] else Tokens(Split(values[0], ',')) + Pieces(values[1..])
  }

  /** An item as it is meant to be sent. */
  predicate IsItem(t: string) { Trim(t) == t && Lower(t) == t && ',' !in t }

  lemma {:induction false} TrimIsTrimmed(s: string)
    ensures Trim(Trim(s)) == Trim(s) && forall c :: c in Trim(s) ==> c in s
    decreases |s|
  {
    if s != "" && IsAsciiSpace(s[0]) {
      TrimIsTrimmed(s[1..]);
    } else if s != "" && IsAsciiSpace(s[|s| - 1]) {
      TrimIsTrimmed(s[..|s| - 1]);
    }
  }

  /** Trimming goes by the characters' being spaces, which case does not change. */
  lemma {:induction false} LowerKeepsTrim(s: string)
    requires Trim(s) == s
    ensures Trim(Lower(s)) == Lower(s)
  {
    if s != "" {
      TrimEnds(s);
      assert LowerChar(s[0]) == Lower(s)[0] && LowerChar(s[|s| - 1]) == Lower(s)[|s| - 1];
    }
  }

  lemma TrimEnds(s: string)
    requires Trim(s) == s && s != ""
    ensures !IsAsciiSpace(s[0]) && !IsAsciiSpace(s[|s| - 1])
  {
    TrimShortens(s[1..]);
    TrimShortens(s[..|s| - 1]);
  }

  lemma {:induction false} TrimShortens(s: string)
    ensures |Trim(s)| <= |s|
    decreases |s|
  {
    if s != "" && IsAsciiSpace(s[0]) {
      TrimShortens(s[1..]);
    } else if s != "" && IsAsciiSpace(s[|s| - 1]) {
      TrimShortens(s[..|s| - 1]);
    }
  }

  lemma {:induction false} LowerKeepsComma(s: string)
    requires ',' !in s
    ensures ',' !in Lower(s)
  {
    if s != "" {
      LowerKeepsComma(s[1..]);
    }
  }

  lemma PieceIsItem(part: string)
    requires ',' !in part
    ensures IsItem(Lower(Trim(part)))
  {
    var t := Trim(part);
    TrimIsTrimmed(part);
    LowerKeepsTrim(t);
    LowerTwice(t);
    LowerKeepsComma(t);
  }

  lemma {:induction false} TokensAreItems(parts: seq<string>)
    requires forall p :: p in parts ==> ',' !in p
    ensures forall t :: t in Tokens(parts) ==> IsItem(t)
  {
    if parts != [] {
      PieceIsItem(parts[0]);
      TokensAreItems(parts[1..]);
    }
  }

  lemma {:induction false} PiecesAreItems(values: seq<string>)
    ensures forall t :: t in Pieces(values) ==> IsItem(t)
  {
    if values != [] {
      JoinSplit(values[0], ',');
      TokensAreItems(Split(values[0], ','));
      PiecesAreItems(values[1..]);
    }
  }

  lemma {:induction false} TokensConcat(a: seq<string>, b: seq<string>)
    ensures Tokens(a + b) == Tokens(a) + Tokens(b)
  {
    hide Trim;
    hide Lower;
    if a == [] {
      assert a + b == b;
    } else {
      TokensConcat(a[1..], b);
      HeadAndTail(a, b);
      Joins([Lower(Trim(a[0]))], Tokens(a[1..]), Tokens(b));
    }
  }

  lemma {:induction false} SplitConcat(a: string, b: string)
    ensures Split(a + [','] + b, ',') == Split(a, ',') + Split(b, ',')
  {
    var s := a + [','] + b;
    Joins(a, [','], b);
    if a == "" {
      assert s[1..] == b;
    } else {
      SplitConcat(a[1..], b);
      HeadAndTail(a, [','] + b);
      Joins(a[1..], [','], b);
      var p, q := Split(a[1..], ','), Split(b, ',');
      HeadAndTail(p, q);
      Joins([""], p, q);
      Joins([[a[0]] + p[0]], p[1..], q);
    }
  }

  lemma {:induction false} JoinedPieces(values: seq<string>)
    requires values != []
    ensures Tokens(Split(Join(values, ','), ',')) == Pieces(values)
  {
    if |values| == 1 {
      assert Pieces(values[1..]) == [];
    } else {
      JoinedPieces(values[1..]);
      SplitConcat(values[0], Join(values[1..], ','));
      TokensConcat(Split(values[0], ','), Split(Join(values[1..], ','), ','));
    }
  }

  lemma JoinIsNotBlank(values: seq<string>)
    requires |values| > 1
    ensures !IsBlank(Join(values, ','))
  {
    assert Join(values, ',')[|values[0]|] == ',' && !IsSpace(',');
  }

  /** Lists: however the items are spread over header lines, they are read in order, each trimmed, in lower case and
      without a comma; refused is exactly one blank line. */
  lemma ListsAreRead(rules: Rules, key: string, values: seq<string>)
    requires IsList(key) && values != []
    ensures Shape(rules, key, values).None? <==> |values| == 1 && IsBlank(values[0])
    ensures Shape(rules, key, values).Some? ==> Shape(rules, key, values).value == List(Pieces(values))
    ensures forall t :: t in Pieces(values) ==> IsItem(t)
  {
    JoinedPieces(values);
    PiecesAreItems(values);
    hide Pieces;
    hide Tokens;
    hide Split;
    hide IsItem;
    if |values| > 1 {
      JoinIsNotBlank(values);
    }
  }

  lemma {:induction false} ItemsStay(items: seq<string>)
    requires forall t :: t in items ==> IsItem(t)
    ensures Tokens(items) == items
  {
    hide Trim;
    hide Lower;
    if items != [] {
      assert IsItem(items[0]);
      ItemsStay(items[1..]);
    }
  }

  /** And a list of items is what its text, on one line, is read as. */
  lemma ListReads(rules: Rules, key: string, items: seq<string>)
    requires IsList(key) && items != [] && (forall t :: t in items ==> IsItem(t)) && !IsBlank(Join(items, ','))
    ensures Shape(rules, key, [Join(items, ',')]) == Some(List(items))
  {
    SplitJoin(items, ',');
    ItemsStay(items);
  }

  /** Each name is one of the key's, in any case, and no two are the same. */
  ghost predicate GivenOnce(key: string, pairs: seq<(string, string)>) {
    (forall i :: 0 <= i < |pairs| ==> Lower(pairs[i].0) in Allowed(key)) &&
    forall i, j :: 0 <= i < j < |pairs| ==> Lower(pairs[i].0) != Lower(pairs[j].0)
  }

  lemma {:induction false} FitsExactly(key: string, pairs: seq<(string, string)>)
    ensures PairsFit(key, pairs) <==> GivenOnce(key, pairs)
    ensures forall n :: n in ValuesOf(pairs) <==> exists i :: 0 <= i < |pairs| && Lower(pairs[i].0) == n
  {
    hide Allowed;
    hide Lower;
    if pairs != [] {
      var front, last := pairs[..|pairs| - 1], pairs[|pairs| - 1];
      FitsExactly(key, front);
      assert forall i :: 0 <= i < |front| ==> pairs[i] == front[i];
      GivenOnceMore(key, pairs);
    }
  }

  lemma GivenOnceMore(key: string, pairs: seq<(string, string)>)
    requires pairs != []
    ensures var front, name := pairs[..|pairs| - 1], Lower(pairs[|pairs| - 1].0);
            GivenOnce(key, pairs) <==>
              GivenOnce(key, front) && name in Allowed(key) &&
              !exists i :: 0 <= i < |front| && Lower(front[i].0) == name
  {
    hide Allowed;
    hide Lower;
    var front, last := pairs[..|pairs| - 1], pairs[|pairs| - 1];
    assert pairs == front + [last];
  }

  lemma {:induction false} PairIs(key: string, pairs: seq<(string, string)>, i: nat)
    requires GivenOnce(key, pairs) && i < |pairs|
    ensures |NamesOf(pairs)| == |pairs| && NamesOf(pairs)[i] == Lower(pairs[i].0)
    ensures Lower(pairs[i].0) in ValuesOf(pairs) && ValuesOf(pairs)[Lower(pairs[i].0)] == pairs[i].1
    decreases |pairs|
  {
    hide Allowed;
    hide Lower;
    var front := pairs[..|pairs| - 1];
    GivenOnceMore(key, pairs);
    if i < |front| {
      PairIs(key, front, i);
    } else if front != [] {
      PairIs(key, front, 0);
    }
  }

  /** Pairs: they are accepted exactly when the text reads as cookies, every name is allowed and none is given twice;
      then each name has its value, the order is the order in which they were sent, and there is nothing else. */
  lemma PairsAreRead(rules: Rules, key: string, raw: string)
    ensures ShapePairs(rules, key, raw).Some? <==> rules.cookies(raw).Some? && GivenOnce(key, rules.cookies(raw).value)
    ensures ShapePairs(rules, key, raw).Some? ==>
              var pairs, r := rules.cookies(raw).value, ShapePairs(rules, key, raw).value;
              r.Pairs? && |r.order| == |pairs| && r.values.Keys == (set n | n in r.order) &&
              forall i :: 0 <= i < |pairs| ==>
                r.order[i] == Lower(pairs[i].0) && r.order[i] in r.values && r.values[r.order[i]] == pairs[i].1
  {
    if rules.cookies(raw).Some? {
      var pairs := rules.cookies(raw).value;
      FitsExactly(key, pairs);
      if GivenOnce(key, pairs) {
        PairsAreAll(key, pairs);
      }
    }
  }

  lemma PairsAreAll(key: string, pairs: seq<(string, string)>)
    requires GivenOnce(key, pairs)
    ensures var values, order := ValuesOf(pairs), NamesOf(pairs);
            |order| == |pairs| && values.Keys == (set n | n in order) &&
            forall i :: 0 <= i < |pairs| ==>
              order[i] == Lower(pairs[i].0) && order[i] in values && values[order[i]] == pairs[i].1
  {
    FitsExactly(key, pairs);
    forall i | 0 <= i < |pairs|
      ensures |NamesOf(pairs)| == |pairs| && NamesOf(pairs)[i] == Lower(pairs[i].0)
      ensures Lower(pairs[i].0) in ValuesOf(pairs) && ValuesOf(pairs)[Lower(pairs[i].0)] == pairs[i].1
    {
      PairIs(key, pairs, i);
    }
    hide Lower;
    hide ValuesOf;
  }

  // What a request asks for

  predicate IsFor(name: string, key: string) { HasPrefix(name) && KeyOf(name) == key }

  ghost predicate Names(h: Header, key: string) { exists n :: n in h && IsFor(n, key) }

  /** The one header that gives a directive. */
  ghost function NameOf(h: Header, key: string): (n: string)
    requires Names(h, key)
    ensures n in h && IsFor(n, key)
  {
    var n :| n in h && IsFor(n, key);
    n
  }

  lemma PrefixAndKey(n: string)
    requires HasPrefix(n)
    ensures Lower(n) == PREFIX + KeyOf(n)
  {
    LowerJoins(n[..|PREFIX|], n[|PREFIX|..]);
    hide Lower;
    assert n == n[..|PREFIX|] + n[|PREFIX|..];
  }

  lemma NameIsUnique(h: Header, m: string, n: string)
    requires Canonical(h) && m in h && n in h && HasPrefix(m) && HasPrefix(n) && KeyOf(m) == KeyOf(n)
    ensures m == n
  {
    PrefixAndKey(m);
    PrefixAndKey(n);
    hide Lower;
  }

  /** The header gives a directive that is known, permitted and well shaped. */
  ghost predicate Fits(rules: Rules, h: Header, deny: set<string>, n: string)
    requires Canonical(h) && n in h && HasPrefix(n)
  {
    KeyOf(n) in KNOWN && KeyOf(n) !in deny && Shape(rules, KeyOf(n), h[n]).Some?
  }

  ghost predicate AllFit(rules: Rules, h: Header, deny: set<string>)
    requires Canonical(h)
  {
    forall n :: n in h && HasPrefix(n) ==> Fits(rules, h, deny, n)
  }

  ghost function Requested(rules: Rules, h: Header, deny: set<string>): map<string, Shaped>
    requires Canonical(h)
  {
    map k | k in KNOWN && Names(h, k) && Fits(rules, h, deny, NameOf(h, k)) :: Shape(rules, k, h[NameOf(h, k)]).value
  }

  /** A default gives way to the request naming the same directive, or one of the other identity group. */
  predicate Displaced(req: map<string, Shaped>, key: string) {
    key in req ||
    ((key == "browser" || key == "os" || key == "match") && "profile" in req) ||
    (key == "profile" && ("browser" in req || "os" in req || "match" in req))
  }

  function Merged(req: map<string, Shaped>, defaults: map<string, Shaped>): map<string, Shaped> {
    (map k | k in defaults && !Displaced(req, k) :: defaults[k]) + req
  }

  // What the schema and the policy demand

  predicate Exclusive(rules: Rules, fields: map<string, Shaped>) {
    "profile" in fields ==>
      "browser" !in fields && "os" !in fields && !("match" in fields && rules.truth(fields["match"]))
  }

  predicate Valid(rules: Rules, fields: map<string, Shaped>) {
    (forall k :: k in fields ==> rules.valid(k, fields[k])) && Exclusive(rules, fields)
  }

  predicate Permits(rules: Rules, hosts: seq<string>, proxy: Shaped) {
    hosts == [] ||
    (rules.site(proxy).Some? && exists i :: 0 <= i < |hosts| && Matches(hosts[i], rules.site(proxy).value))
  }

  predicate ProxyOk(rules: Rules, p: Policy, fields: map<string, Shaped>) {
    if "proxy" in fields then Permits(rules, p.proxyHosts, fields["proxy"]) else !p.requireProxy
  }

  ghost function Fields(rules: Rules, h: Header, p: Policy): map<string, Shaped>
    requires Canonical(h)
  {
    Merged(Requested(rules, h, p.deny), p.defaults)
  }

  ghost predicate Accepts(rules: Rules, h: Header, p: Policy)
    requires Canonical(h)
  {
    AllFit(rules, h, p.deny) && Valid(rules, Fields(rules, h, p)) && ProxyOk(rules, p, Fields(rules, h, p))
  }

  // The methods

  method ProxyAllowed(rules: Rules, hosts: seq<string>, proxy: Shaped) returns (ok: bool)
    ensures ok == Permits(rules, hosts, proxy)
  {
    if hosts == [] {
      return true;
    }
    var site := rules.site(proxy);
    if site.None? {
      return false;
    }
    for i := 0 to |hosts|
      invariant forall k :: 0 <= k < i ==> !Matches(hosts[k], site.value)
    {
      var pattern := SplitPattern(hosts[i]);
      if pattern.port != "" && pattern.port != site.value.port {
        continue;
      }
      if pattern.name == site.value.name || ("*." <= pattern.name && EndsWith(site.value.name, pattern.name[1..])) {
        return true;
      }
    }
    ok := false;
  }

  /** The directives of the header, shaped, and an issue for each that cannot be. */
  method ReadHeader(rules: Rules, h: Header, deny: set<string>) returns (req: map<string, Shaped>, issues: seq<Issue>)
    requires Canonical(h)
    ensures req == Requested(rules, h, deny)
    ensures issues == [] <==> AllFit(rules, h, deny)
  {
    req, issues := map[], [];
    var left := h.Keys;
    while left != {}
      invariant left <= h.Keys
      invariant issues == [] <==> forall n :: n in h && n !in left && HasPrefix(n) ==> Fits(rules, h, deny, n)
      invariant forall k :: k in req ==>
        exists n :: n in h && n !in left && IsFor(n, k) && Fits(rules, h, deny, n) &&
                    req[k] == Shape(rules, k, h[n]).value
      invariant forall n :: n in h && n !in left && HasPrefix(n) && Fits(rules, h, deny, n) ==> KeyOf(n) in req
      decreases |left|
    {
      var name :| name in left;
      left := left - {name};
      if !HasPrefix(name) {
        continue;
      }
      var key := KeyOf(name);
      if key !in KNOWN {
        issues := issues + [Unknown(name)];
      } else if key in deny {
        issues := issues + [Denied(key)];
      } else {
        var shaped := ShapeValue(rules, key, h[name]);
        if shaped.None? {
          issues := issues + [Misshaped(key)];
        } else {
          req := req[key := shaped.value];
        }
      }
    }
    RequestedIs(rules, h, deny, req);
  }

  /** A value read for a key is the one the header gives it. */
  ghost predicate ReadFor(rules: Rules, h: Header, deny: set<string>, k: string, v: Shaped)
    requires Canonical(h)
  {
    exists n :: n in h && IsFor(n, k) && Fits(rules, h, deny, n) && v == Shape(rules, k, h[n]).value
  }

  lemma ReadIsRequested(rules: Rules, h: Header, deny: set<string>, k: string, v: Shaped)
    requires Canonical(h) && ReadFor(rules, h, deny, k, v)
    ensures k in Requested(rules, h, deny) && Requested(rules, h, deny)[k] == v
  {
    var n :| n in h && IsFor(n, k) && Fits(rules, h, deny, n) && v == Shape(rules, k, h[n]).value;
    NameIsUnique(h, n, NameOf(h, k));
  }

  lemma MapsEqual<T>(a: map<string, T>, b: map<string, T>)
    requires (forall k :: k in a ==> k in b && b[k] == a[k]) && forall k :: k in b ==> k in a
    ensures a == b
  {
  }

  lemma RequestedIs(rules: Rules, h: Header, deny: set<string>, req: map<string, Shaped>)
    requires Canonical(h) && forall k :: k in req ==> ReadFor(rules, h, deny, k, req[k])
    requires forall n :: n in h && HasPrefix(n) && Fits(rules, h, deny, n) ==> KeyOf(n) in req
    ensures req == Requested(rules, h, deny)
  {
    var all := Requested(rules, h, deny);
    forall k | k in req ensures k in all && all[k] == req[k] {
      ReadIsRequested(rules, h, deny, k, req[k]);
    }
    forall k | k in all ensures k in req {
      assert HasPrefix(NameOf(h, k));
    }
    MapsEqual(req, all);
  }

  /** The defaults that the request leaves in place, and the request over them. */
  method Merge(req: map<string, Shaped>, defaults: map<string, Shaped>) returns (fields: map<string, Shaped>)
    ensures fields == Merged(req, defaults)
  {
    hide Displaced;
    fields := map[];
    var left := defaults.Keys;
    while left != {}
      invariant left <= defaults.Keys
      invariant forall k :: k in fields <==> k in defaults && k !in left && !Displaced(req, k)
      invariant forall k :: k in fields ==> fields[k] == defaults[k]
      decreases |left|
    {
      var key :| key in left;
      left := left - {key};
      if !Displaced(req, key) {
        fields := fields[key := defaults[key]];
      }
    }
    MapsEqual(fields, map k | k in defaults && !Displaced(req, k) :: defaults[k]);
    fields := fields + req;
  }

  /** The schema's verdict, an issue for each field that fails and one for a clash of identities. */
  method Validate(rules: Rules, fields: map<string, Shaped>) returns (issues: seq<Issue>)
    ensures issues == [] <==> Valid(rules, fields)
  {
    issues := [];
    var left := fields.Keys;
    while left != {}
      invariant left <= fields.Keys
      invariant issues == [] <==> forall k :: k in fields && k !in left ==> rules.valid(k, fields[k])
      decreases |left|
    {
      var key :| key in left;
      left := left - {key};
      if !rules.valid(key, fields[key]) {
        issues := issues + [Invalid(key)];
      }
    }
    if !Exclusive(rules, fields) {
      issues := issues + [Clash];
    }
  }

  method Parse(rules: Rules, h: Header, p: Policy) returns (r: Result<Directive>)
    requires Canonical(h)
    ensures r.Ok? <==> Accepts(rules, h, p)
    ensures r.Ok? ==> r.value == Directive(Fields(rules, h, p), Requested(rules, h, p.deny).Keys)
    ensures r.Err? ==> r.issues != []
  {
    var req, issues := ReadHeader(rules, h, p.deny);
    var fields := Merge(req, p.defaults);
    var faults := Validate(rules, fields);
    issues := issues + faults;
    if issues != [] {
      return Err(issues);
    }
    if "proxy" !in fields && p.requireProxy {
      issues := issues + [NeedsProxy];
    }
    if "proxy" in fields {
      var allowed := ProxyAllowed(rules, p.proxyHosts, fields["proxy"]);
      if !allowed {
        issues := issues + [ForeignProxy];
      }
    }
    if issues != [] {
      return Err(issues);
    }
    r := Ok(Directive(fields, req.Keys));
  }
}
