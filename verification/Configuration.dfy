/** The policy that a configuration makes: its defaults, what it denies, what it demands of the proxy, and what all that
    does to a request. */
module Configuration {
  import opened Directives
  import opened HostPatterns
  import opened Options
  import opened Texts

  // Names and values as they are configured

  function TrimSpace(s: string): string
    decreases |s|
  {
    if s != "" && IsSpace(s[0]) then TrimSpace(s[1..])
    else if s != "" && IsSpace(s[|s| - 1]) then TrimSpace(s[..|s| - 1])
    else s
  }

  /** The directive that an entry of the deny list names, with or without the prefix. */
  function DenyKey(name: string): string {
    var key := Lower(TrimSpace(name));
    if HasPrefix(key) then key[|PREFIX|..] else key
  }

  /** The header name of a configured default; canonical form is taken here as lower case. */
  function DefaultName(name: string): string {
    var t := TrimSpace(name);
    Lower(if HasPrefix(t) then t else PREFIX + t)
  }

  lemma DefaultNameFits(name: string)
    ensures HasPrefix(DefaultName(name)) && Lower(DefaultName(name)) == DefaultName(name)
  {
    var t := TrimSpace(name);
    var full := if HasPrefix(t) then t else PREFIX + t;
    LowerTwice(full);
    assert full[..|PREFIX|] == if HasPrefix(t) then t[..|PREFIX|] else PREFIX;
    assert Lower(full)[..|PREFIX|] == Lower(full[..|PREFIX|]);
  }

  // The defaults as a header

  /** `h.Add`. */
  function Add(h: Header, n: string, v: string): Header {
    h[n := (if n in h then h[n] else []) + [v]]
  }

  /** The header that adding the defaults in this order makes; names that differ by case or prefix share an entry. */
  function Gathered(defaults: map<string, string>, order: seq<string>): Header
    requires forall k :: k in order ==> k in defaults
  {
    if order == [] then map[]
    else
      var k := order[|order| - 1];
      Add(Gathered(defaults, order[..|order| - 1]), DefaultName(k), TrimSpace(defaults[k]))
  }

  /** An order in which a walk of the map may go. */
  ghost predicate Walks(defaults: map<string, string>, order: seq<string>) {
    Distinct(order) && forall k :: k in order <==> k in defaults
  }

  ghost predicate Distinct(order: seq<string>) { forall i, j :: 0 <= i < j < |order| ==> order[i] != order[j] }

  lemma DistinctFront(order: seq<string>)
    requires Distinct(order) && order != []
    ensures Distinct(order[..|order| - 1]) && order[|order| - 1] !in order[..|order| - 1]
  {
  }

  lemma {:induction false} GatheredIsCanonical(defaults: map<string, string>, order: seq<string>)
    requires forall k :: k in order ==> k in defaults
    ensures var h := Gathered(defaults, order);
            forall n :: n in h ==> HasPrefix(n) && Lower(n) == n && h[n] != []
  {
    if order != [] {
      GatheredIsCanonical(defaults, order[..|order| - 1]);
      DefaultNameFits(order[|order| - 1]);
    }
  }

  lemma GatheredOne(defaults: map<string, string>, order: seq<string>, k: string)
    requires (forall x :: x in order ==> x in defaults) && k in defaults
    ensures Gathered(defaults, order + [k]) == Add(Gathered(defaults, order), DefaultName(k), TrimSpace(defaults[k]))
  {
    assert (order + [k])[..|order|] == order;
  }

  method DefaultHeader(defaults: map<string, string>) returns (h: Header, ghost order: seq<string>)
    ensures Walks(defaults, order) && h == Gathered(defaults, order) && Canonical(h)
  {
    h, order := map[], [];
    var left := defaults.Keys;
    while left != {}
      invariant left <= defaults.Keys && forall k :: k in order <==> k in defaults && k !in left
      invariant Distinct(order)
      invariant h == Gathered(defaults, order)
      decreases |left|
    {
      var name :| name in left;
      GatheredOne(defaults, order, name);
      left := left - {name};
      h, order := Add(h, DefaultName(name), TrimSpace(defaults[name])), order + [name];
    }
    GatheredIsCanonical(defaults, order);
  }

  /** The values of one entry, in the order of the walk. */
  function Entry(defaults: map<string, string>, order: seq<string>, n: string): seq<string>
    requires forall k :: k in order ==> k in defaults
  {
    if order == [] then []
    else
      var k := order[|order| - 1];
      Entry(defaults, order[..|order| - 1], n) + if DefaultName(k) == n then [TrimSpace(defaults[k])] else []
  }

  /** An entry holds the values of exactly the defaults of its name. */
  lemma {:induction false} GatheredIs(defaults: map<string, string>, order: seq<string>, n: string)
    requires forall k :: k in order ==> k in defaults
    ensures var h := Gathered(defaults, order);
            (n in h <==> exists k :: k in order && DefaultName(k) == n) &&
            (n in h ==> h[n] == Entry(defaults, order, n)) &&
            (n !in h ==> Entry(defaults, order, n) == [])
  {
    if order != [] {
      var front, k := order[..|order| - 1], order[|order| - 1];
      GatheredIs(defaults, front, n);
      assert forall x :: x in order <==> x in front || x == k;
    }
  }

  lemma {:induction false} EntryOfOne(defaults: map<string, string>, order: seq<string>, k: string)
    requires Distinct(order) && forall x :: x in order ==> x in defaults
    requires forall x :: x in order && DefaultName(x) == DefaultName(k) ==> x == k
    ensures Entry(defaults, order, DefaultName(k)) == if k in order then [TrimSpace(defaults[k])] else []
  {
    if order != [] {
      var front, last := order[..|order| - 1], order[|order| - 1];
      DistinctFront(order);
      hide Distinct;
      assert forall x :: x in order <==> x in front || x == last;
      EntryOfOne(defaults, front, k);
    }
  }

  /** A default whose name no other has is an entry of one value, in whatever order the map is walked. */
  lemma SeparateEntry(defaults: map<string, string>, order: seq<string>, k: string)
    requires Walks(defaults, order) && k in defaults
    requires forall x :: x in defaults && DefaultName(x) == DefaultName(k) ==> x == k
    ensures DefaultName(k) in Gathered(defaults, order) &&
            Gathered(defaults, order)[DefaultName(k)] == [TrimSpace(defaults[k])]
  {
    GatheredIs(defaults, order, DefaultName(k));
    EntryOfOne(defaults, order, k);
  }

  /** No two configured names are the same directive. */
  ghost predicate Separate(defaults: map<string, string>) {
    forall j, k :: j in defaults && k in defaults && DefaultName(j) == DefaultName(k) ==> j == k
  }

  /** Then the order of the walk does not matter. */
  lemma GatheredAlike(defaults: map<string, string>, a: seq<string>, b: seq<string>)
    requires Separate(defaults) && Walks(defaults, a) && Walks(defaults, b)
    ensures Gathered(defaults, a) == Gathered(defaults, b)
  {
    var g, h := Gathered(defaults, a), Gathered(defaults, b);
    forall n | n in g || n in h ensures n in g && n in h && g[n] == h[n] {
      GatheredIs(defaults, a, n);
      GatheredIs(defaults, b, n);
      var k :| k in defaults && DefaultName(k) == n;
      SeparateEntry(defaults, a, k);
      SeparateEntry(defaults, b, k);
    }
    MapsEqual(g, h);
  }

  // The policy

  /** The defaults are each well shaped and valid, and name one identity. */
  ghost predicate Consistent(rules: Rules, p: Policy) {
    Valid(rules, p.defaults) && p.defaults.Keys <= KNOWN && p.deny <= KNOWN
  }

  lemma NothingDisplaced(rules: Rules, h: Header)
    requires Canonical(h)
    ensures Fields(rules, h, OPEN) == Requested(rules, h, {})
  {
  }

  /** The configured defaults, shaped, if they are a valid request on their own; the walk says which request. */
  method ReadDefaults(rules: Rules, defaults: map<string, string>)
    returns (shaped: Option<map<string, Shaped>>, ghost order: seq<string>)
    ensures Walks(defaults, order) && Canonical(Gathered(defaults, order))
    ensures shaped.Some? <==> Accepts(rules, Gathered(defaults, order), OPEN)
    ensures shaped.Some? ==>
              shaped.value == Requested(rules, Gathered(defaults, order), {}) && Valid(rules, shaped.value) &&
              shaped.value.Keys <= KNOWN
  {
    var h;
    h, order := DefaultHeader(defaults);
    NothingDisplaced(rules, h);
    var r := Parse(rules, h, OPEN);
    if r.Err? {
      return None, order;
    }
    var req, issues := ReadHeader(rules, h, {});
    shaped := Some(req);
  }

  /** The directives that the deny list names, if it names known ones only. */
  method ReadDeny(deny: seq<string>) returns (denied: Option<set<string>>)
    ensures denied.Some? <==> forall i :: 0 <= i < |deny| ==> DenyKey(deny[i]) in KNOWN
    ensures denied.Some? ==> denied.value <= KNOWN && forall k :: k in denied.value <==>
              exists i :: 0 <= i < |deny| && DenyKey(deny[i]) == k
  {
    hide DenyKey;
    var keys: set<string> := {};
    for i := 0 to |deny|
      invariant forall k :: k in keys <==> exists j :: 0 <= j < i && DenyKey(deny[j]) == k
      invariant keys <= KNOWN
    {
      var key := DenyKey(deny[i]);
      if key !in KNOWN {
        return None;
      }
      keys := keys + {key};
    }
    denied := Some(keys);
  }

  /** A policy is made exactly of known denied names and of defaults that are an acceptable request on their own. */
  method NewPolicy(rules: Rules, defaults: map<string, string>, deny: seq<string>)
    returns (p: Option<Policy>, ghost order: seq<string>)
    ensures Walks(defaults, order) && Canonical(Gathered(defaults, order))
    ensures p.Some? <==>
              (forall i :: 0 <= i < |deny| ==> DenyKey(deny[i]) in KNOWN) &&
              Accepts(rules, Gathered(defaults, order), OPEN)
    ensures p.Some? ==> Consistent(rules, p.value) && p.value.proxyHosts == [] && !p.value.requireProxy
    ensures p.Some? ==> p.value.defaults == Requested(rules, Gathered(defaults, order), {})
    ensures p.Some? ==> forall k :: k in p.value.deny <==> exists i :: 0 <= i < |deny| && DenyKey(deny[i]) == k
  {
    hide DenyKey;
    hide Accepts;
    hide Gathered;
    hide Requested;
    hide Canonical;
    hide Valid;
    hide Walks;
    var denied := ReadDeny(deny);
    var shaped;
    shaped, order := ReadDefaults(rules, defaults);
    if denied.None? || shaped.None? {
      return None, order;
    }
    p := Some(Policy(shaped.value, denied.value, [], false));
  }

  /** Two configured names for one directive that takes a single value are refused, whatever the walk. */
  lemma CollidingScalarsAreRefused(rules: Rules, defaults: map<string, string>, order: seq<string>, j: string,
                                   k: string, n: string)
    requires Walks(defaults, order) && j in defaults && k in defaults && j != k && DefaultName(j) == n &&
             DefaultName(k) == n
    requires Canonical(Gathered(defaults, order)) && HasPrefix(n) && !IsList(KeyOf(n)) && !IsPairs(KeyOf(n))
    ensures !Accepts(rules, Gathered(defaults, order), OPEN)
  {
    GatheredIs(defaults, order, n);
    EntryOfTwo(defaults, order, j, k);
    hide Gathered;
    hide Entry;
    hide DefaultName;
    SentTwice(rules, Gathered(defaults, order), n);
  }

  lemma SentTwice(rules: Rules, h: Header, n: string)
    requires Canonical(h) && n in h && |h[n]| >= 2 && HasPrefix(n) && !IsList(KeyOf(n)) && !IsPairs(KeyOf(n))
    ensures !Accepts(rules, h, OPEN)
  {
    hide Valid;
    hide ProxyOk;
    hide Fields;
    assert !Fits(rules, h, {}, n);
  }

  lemma {:induction false} EntryHolds(defaults: map<string, string>, order: seq<string>, k: string)
    requires (forall x :: x in order ==> x in defaults) && k in order
    ensures |Entry(defaults, order, DefaultName(k))| >= 1
  {
    hide DefaultName;
    hide TrimSpace;
    if order[|order| - 1] != k {
      EntryHolds(defaults, order[..|order| - 1], k);
    }
  }

  lemma {:induction false} EntryOfTwo(defaults: map<string, string>, order: seq<string>, j: string, k: string)
    requires (forall x :: x in order ==> x in defaults) && j in order && k in order && j != k &&
             DefaultName(j) == DefaultName(k)
    ensures |Entry(defaults, order, DefaultName(k))| >= 2
  {
    hide DefaultName;
    hide TrimSpace;
    var front, last := order[..|order| - 1], order[|order| - 1];
    assert forall x :: x in order <==> x in front || x == last;
    if last == k {
      EntryHolds(defaults, front, j);
    } else if last == j {
      EntryHolds(defaults, front, k);
    } else {
      EntryOfTwo(defaults, front, j, k);
    }
  }

  // What configuration does to a request

  /** The request names a directive of the other identity group: a profile, or a browser, an OS or a match. */
  ghost predicate NamesRival(h: Header, key: string) {
    (key in {"browser", "os", "match"} && Names(h, "profile")) ||
    (key == "profile" && (Names(h, "browser") || Names(h, "os") || Names(h, "match")))
  }

  lemma RequestedIsNamed(rules: Rules, h: Header, deny: set<string>, k: string)
    requires Canonical(h) && AllFit(rules, h, deny)
    ensures k in Requested(rules, h, deny) <==> Names(h, k)
  {
    if Names(h, k) {
      assert HasPrefix(NameOf(h, k));
    }
  }

  lemma DisplacedByName(rules: Rules, h: Header, deny: set<string>, k: string)
    requires Canonical(h) && AllFit(rules, h, deny)
    ensures Displaced(Requested(rules, h, deny), k) <==> Names(h, k) || NamesRival(h, k)
  {
    hide AllFit;
    hide Names;
    hide Requested;
    RequestedIsNamed(rules, h, deny, k);
    RequestedIsNamed(rules, h, deny, "profile");
    RequestedIsNamed(rules, h, deny, "browser");
    RequestedIsNamed(rules, h, deny, "os");
    RequestedIsNamed(rules, h, deny, "match");
  }

  /** Where each field of an accepted request comes from: its own header gives every directive it names; a default gives
      one that it does not name, and whose rivals it does not name either. */
  lemma FieldsComeFrom(rules: Rules, h: Header, p: Policy, k: string)
    requires Canonical(h) && Accepts(rules, h, p)
    ensures var all := Fields(rules, h, p);
            (k in all <==> Names(h, k) || (k in p.defaults && !NamesRival(h, k))) &&
            (Names(h, k) ==> Shape(rules, k, h[NameOf(h, k)]) == Some(all[k])) &&
            (k in all && !Names(h, k) ==> all[k] == p.defaults[k])
    ensures k in Requested(rules, h, p.deny) <==> Names(h, k)
  {
    if Names(h, k) {
      assert IsFor(NameOf(h, k), k) && Fits(rules, h, p.deny, NameOf(h, k));
    }
    hide NamesRival;
    hide Displaced;
    hide Valid;
    hide ProxyOk;
    hide Shape;
    RequestedIsNamed(rules, h, p.deny, k);
    DisplacedByName(rules, h, p.deny, k);
  }

  /** Merging never brings two identities together that each side kept apart. */
  lemma MergeIsExclusive(rules: Rules, req: map<string, Shaped>, defaults: map<string, Shaped>)
    requires Exclusive(rules, req) && Exclusive(rules, defaults)
    ensures Exclusive(rules, Merged(req, defaults))
  {
  }

  lemma MergeIsValid(rules: Rules, req: map<string, Shaped>, defaults: map<string, Shaped>)
    requires Valid(rules, defaults)
    ensures Valid(rules, Merged(req, defaults)) <==> Valid(rules, req)
  {
    var all := Merged(req, defaults);
    assert forall k :: k in req ==> k in all && all[k] == req[k];
    if Valid(rules, req) {
      MergeIsExclusive(rules, req, defaults);
    }
  }

  /** No denied directive is in the header. */
  ghost predicate Permitted(h: Header, deny: set<string>) {
    forall n :: n in h && HasPrefix(n) ==> KeyOf(n) !in deny
  }

  lemma DenyNothing(rules: Rules, h: Header, deny: set<string>)
    requires Canonical(h) && Permitted(h, deny)
    ensures AllFit(rules, h, deny) <==> AllFit(rules, h, {})
    ensures Requested(rules, h, deny) == Requested(rules, h, {})
  {
    forall k | k in KNOWN && Names(h, k) ensures Fits(rules, h, deny, NameOf(h, k)) <==>
      Fits(rules, h, {}, NameOf(h, k)) {
      assert HasPrefix(NameOf(h, k));
    }
    MapsEqual(Requested(rules, h, deny), Requested(rules, h, {}));
  }

  /** Configuration never breaks a valid request: under a consistent policy, exactly the requests are accepted that are
      valid on their own, hold no denied directive, and meet the demands on the proxy after merging. */
  lemma ConfigurationIsTransparent(rules: Rules, h: Header, p: Policy)
    requires Canonical(h) && Consistent(rules, p)
    ensures Accepts(rules, h, p) <==> Accepts(rules, h, OPEN) && Permitted(h, p.deny) &&
                                      ProxyOk(rules, p, Fields(rules, h, p))
  {
    NothingDisplaced(rules, h);
    if Permitted(h, p.deny) {
      DenyNothing(rules, h, p.deny);
      MergeIsValid(rules, Requested(rules, h, {}), p.defaults);
    }
  }

  /** Without demands on the proxy, nothing else is asked. */
  lemma ConfigurationNeverBreaks(rules: Rules, h: Header, p: Policy)
    requires Canonical(h) && Consistent(rules, p) && p.proxyHosts == [] && !p.requireProxy
    requires Accepts(rules, h, OPEN) && Permitted(h, p.deny)
    ensures Accepts(rules, h, p)
  {
    ConfigurationIsTransparent(rules, h, p);
  }

  /** The request itself names both identity groups: a profile beside a browser, an OS or a match that says true. */
  ghost predicate NamesBoth(rules: Rules, h: Header)
    requires Canonical(h)
  {
    Names(h, "profile") &&
    (Names(h, "browser") || Names(h, "os") ||
     (Names(h, "match") && exists v :: Shape(rules, "match", h[NameOf(h, "match")]) == Some(v) && rules.truth(v)))
  }

  /** A clash of identities is always the request's own: no default ever takes part in one, and no default hides one. */
  lemma ClashIsOwn(rules: Rules, h: Header, p: Policy)
    requires Canonical(h) && Consistent(rules, p) && AllFit(rules, h, p.deny)
    ensures Exclusive(rules, Fields(rules, h, p)) <==> !NamesBoth(rules, h)
  {
    var req := Requested(rules, h, p.deny);
    RequestedIsNamed(rules, h, p.deny, "profile");
    RequestedIsNamed(rules, h, p.deny, "browser");
    RequestedIsNamed(rules, h, p.deny, "os");
    RequestedIsNamed(rules, h, p.deny, "match");
    assert Exclusive(rules, req) <==> !NamesBoth(rules, h);
    if Exclusive(rules, req) {
      MergeIsExclusive(rules, req, p.defaults);
    }
  }

  // The demands on the proxy

  /** A configured pattern as it is kept. */
  function PatternText(raw: string): string { Lower(TrimSpace(raw)) }

  function Texted(patterns: seq<string>): seq<string> {
    if patterns == [] then []
    else Texted(patterns[..|patterns| - 1]) + [PatternText(patterns[|patterns| - 1])]
  }

  /** Every entry has to be a host pattern, and the default proxy, if there is one, has to pass them. */
  method ProxyHosts(rules: Rules, p: Policy, patterns: seq<string>) returns (r: Option<Policy>)
    ensures r.Some? <==> (forall i :: 0 <= i < |patterns| ==>
                           var t := PatternText(patterns[i]);
                           t != "" && '/' !in t && '@' !in t && ' ' !in t && '\t' !in t) &&
                         ("proxy" in p.defaults ==> Permits(rules, Texted(patterns), p.defaults["proxy"]))
    ensures r.Some? ==> r.value == p.(proxyHosts := Texted(patterns))
  {
    var hosts: seq<string> := [];
    for i := 0 to |patterns|
      invariant forall k :: 0 <= k < i ==>
        var t := PatternText(patterns[k]); t != "" && '/' !in t && '@' !in t && ' ' !in t && '\t' !in t
      invariant hosts == Texted(patterns[..i])
    {
      var pattern := PatternText(patterns[i]);
      if pattern == "" || '/' in pattern || '@' in pattern || ' ' in pattern || '\t' in pattern {
        return None;
      }
      assert patterns[..i + 1][..i] == patterns[..i];
      hosts := hosts + [pattern];
    }
    assert patterns[..|patterns|] == patterns;
    if "proxy" in p.defaults {
      var ok := ProxyAllowed(rules, hosts, p.defaults["proxy"]);
      if !ok {
        return None;
      }
    }
    r := Some(p.(proxyHosts := hosts));
  }

  function RequireProxy(p: Policy): Option<Policy> {
    if "proxy" in p.deny && "proxy" !in p.defaults then None else Some(p.(requireProxy := true))
  }

  /** Some value of the proxy directive is valid and permitted by the patterns. */
  ghost predicate SomeProxy(rules: Rules, hosts: seq<string>) { exists text :: IsProxy(rules, hosts, text) }

  ghost predicate IsProxy(rules: Rules, hosts: seq<string>, text: string) {
    !IsBlank(text) && rules.valid("proxy", Scalar(text)) && Permits(rules, hosts, Scalar(text))
  }

  const PROXY_HEADER := "x-tip-proxy"

  lemma ProxyName()
    ensures HasPrefix(PROXY_HEADER) && KeyOf(PROXY_HEADER) == "proxy"
  {
    assert PROXY_HEADER[..6] == PREFIX && PROXY_HEADER[6..] == "proxy";
  }

  lemma OneDirective(rules: Rules, h: Header, deny: set<string>, n: string)
    requires Canonical(h) && h.Keys == {n} && HasPrefix(n) && Fits(rules, h, deny, n)
    ensures AllFit(rules, h, deny) && Requested(rules, h, deny) == map[KeyOf(n) := Shape(rules, KeyOf(n), h[n]).value]
  {
    hide Shape;
    hide KeyOf;
    hide HasPrefix;
    var req, one := Requested(rules, h, deny), map[KeyOf(n) := Shape(rules, KeyOf(n), h[n]).value];
    assert IsFor(n, KeyOf(n));
    forall k | k in req ensures k in one && one[k] == req[k] {
      assert NameOf(h, k) == n;
    }
    assert NameOf(h, KeyOf(n)) == n;
    MapsEqual(req, one);
  }

  function ProxyHeader(text: string): Header { map[PROXY_HEADER := [text]] }

  lemma ProxyFits(rules: Rules, deny: set<string>, text: string)
    requires "proxy" !in deny && !IsBlank(text)
    ensures var h := ProxyHeader(text);
            Canonical(h) && AllFit(rules, h, deny) && Requested(rules, h, deny) == map["proxy" := Scalar(text)]
  {
    var h := ProxyHeader(text);
    ProxyName();
    hide KeyOf;
    hide HasPrefix;
    hide IsBlank;
    assert Shape(rules, "proxy", h[PROXY_HEADER]) == Some(Scalar(text));
    OneDirective(rules, h, deny, PROXY_HEADER);
  }

  /** The request that asks for a proxy and nothing else. */
  lemma ProxyRequest(rules: Rules, p: Policy, text: string)
    requires Consistent(rules, p) && "proxy" !in p.deny && IsProxy(rules, p.proxyHosts, text)
    ensures Canonical(ProxyHeader(text)) && Accepts(rules, ProxyHeader(text), p.(requireProxy := true))
  {
    hide AllFit;
    hide Requested;
    hide Canonical;
    hide Permits;
    hide IsBlank;
    hide ProxyHeader;
    ProxyFits(rules, p.deny, text);
    var req := map["proxy" := Scalar(text)];
    assert Valid(rules, req);
    MergeIsValid(rules, req, p.defaults);
    assert "proxy" in Merged(req, p.defaults) && Merged(req, p.defaults)["proxy"] == Scalar(text);
    hide Valid;
    hide Merged;
  }

  /** A request that brings a proxy brings a valid and permitted one. */
  lemma AcceptedProxy(rules: Rules, p: Policy, h: Header)
    requires Canonical(h) && Accepts(rules, h, p.(requireProxy := true)) && "proxy" !in p.defaults
    ensures "proxy" !in p.deny && SomeProxy(rules, p.proxyHosts)
  {
    hide KeyOf;
    hide HasPrefix;
    hide Permits;
    hide IsBlank;
    FieldsComeFrom(rules, h, p.(requireProxy := true), "proxy");
    var n := NameOf(h, "proxy");
    assert HasPrefix(n) && Fits(rules, h, p.deny, n);
    hide AllFit;
    hide Fits;
    assert Shape(rules, "proxy", h[n]) == Some(Scalar(h[n][0]));
    assert IsProxy(rules, p.proxyHosts, h[n][0]);
  }

  /** A default proxy serves the request that asks for nothing. */
  lemma NoRequest(rules: Rules, p: Policy)
    requires Consistent(rules, p) && "proxy" in p.defaults && Permits(rules, p.proxyHosts, p.defaults["proxy"])
    ensures Canonical(map[]) && Accepts(rules, map[], p.(requireProxy := true))
  {
    var q := p.(requireProxy := true);
    assert Requested(rules, map[], q.deny) == map[];
    assert Fields(rules, map[], q) == p.defaults;
  }

  /** With the demand for a proxy some request is accepted if and only if RequireProxy accepts the policy and there is a
      default proxy, or any value at all that a request could bring. So what it refuses could have passed no request,
      and what it accepts passes one whenever the rules admit a proxy. */
  lemma RequireProxyIsFair(rules: Rules, p: Policy)
    requires Consistent(rules, p) && ("proxy" in p.defaults ==> Permits(rules, p.proxyHosts, p.defaults["proxy"]))
    ensures (exists h :: Canonical(h) && Accepts(rules, h, p.(requireProxy := true))) <==>
              RequireProxy(p).Some? && ("proxy" in p.defaults || SomeProxy(rules, p.proxyHosts))
  {
    hide Accepts;
    hide Consistent;
    hide Permits;
    var q := p.(requireProxy := true);
    if h :| Canonical(h) && Accepts(rules, h, q) && "proxy" !in p.defaults {
      AcceptedProxy(rules, p, h);
    }
    if "proxy" in p.defaults {
      NoRequest(rules, p);
    } else if "proxy" !in p.deny && SomeProxy(rules, p.proxyHosts) {
      var text :| IsProxy(rules, p.proxyHosts, text);
      ProxyRequest(rules, p, text);
    }
  }

  /** A list permits exactly what one of its patterns does. */
  lemma PermitsEach(rules: Rules, hosts: seq<string>, proxy: Shaped)
    requires hosts != []
    ensures Permits(rules, hosts, proxy) <==> exists i :: 0 <= i < |hosts| && Permits(rules, [hosts[i]], proxy)
  {
    forall i | 0 <= i < |hosts|
      ensures Permits(rules, [hosts[i]], proxy) <==>
                rules.site(proxy).Some? && Matches(hosts[i], rules.site(proxy).value)
    {
      assert [hosts[i]][0] == hosts[i];
    }
  }

  /** Under the policy of one pattern, a host with a port, exactly those requests are accepted that would be without it
      and whose proxy, if they end up with one, is that host at that port. */
  lemma OneHostAtOnePort(rules: Rules, h: Header, p: Policy, host: string, port: string)
    requires Canonical(h) && p.proxyHosts == [host + ":" + port]
    requires (forall c :: c in host ==> c != ':' && c != '[' && c != ']') && !("*." <= host)
    requires (forall c :: c in port ==> c != ':' && c != '[' && c != ']') && port != ""
    ensures Accepts(rules, h, p) <==>
              Accepts(rules, h, p.(proxyHosts := [])) &&
              ("proxy" in Fields(rules, h, p) ==> rules.site(Fields(rules, h, p)["proxy"]) == Some(Site(host, port)))
  {
    var f := Fields(rules, h, p);
    if "proxy" in f && rules.site(f["proxy"]).Some? {
      HostCovers(host, port, rules.site(f["proxy"]).value);
    }
    hide Valid;
    hide AllFit;
    hide Matches;
    assert p.proxyHosts[0] == host + ":" + port;
  }

  /** Under that of a host alone, that host at any port. */
  lemma OneHost(rules: Rules, h: Header, p: Policy, host: string)
    requires Canonical(h) && p.proxyHosts == [host]
    requires (forall c :: c in host ==> c != ':' && c != '[' && c != ']') && !("*." <= host)
    ensures Accepts(rules, h, p) <==>
              Accepts(rules, h, p.(proxyHosts := [])) &&
              ("proxy" in Fields(rules, h, p) ==>
                rules.site(Fields(rules, h, p)["proxy"]).Some? &&
                rules.site(Fields(rules, h, p)["proxy"]).value.name == host)
  {
    var f := Fields(rules, h, p);
    if "proxy" in f && rules.site(f["proxy"]).Some? {
      HostCovers(host, "80", rules.site(f["proxy"]).value);
    }
    hide Valid;
    hide AllFit;
    hide Matches;
    assert p.proxyHosts[0] == host;
  }
}
