/** Choosing the browser and OS a request is impersonated with: what it names, what its User-Agent suggests, what is
    available, and what its tunnel has picked before. */
module Identity {
  import opened Options
  import opened Texts
  import Configuration
  import Directives
  import SpecKey

  // The families and their systems

  const FAMILIES: seq<string> := ["chrome", "edge", "firefox"]
  const ALL_OSES: seq<string> := ["windows", "macos", "linux", "android", "ios"]
  const DETECTION_ORDER: seq<string> := ["edge", "firefox", "chrome"]

  function Oses(browser: string): seq<string> {
    if browser == "edge" then ["windows", "macos", "linux", "android"] else ALL_OSES
  }

  function Markers(browser: string): seq<string> {
    if browser == "edge" then ["Edg/", "EdgA/", "EdgiOS/"]
    else if browser == "firefox" then ["Firefox/", "FxiOS/"]
    else ["Chrome/", "CriOS/", "Chromium/"]
  }

  predicate Supported(browser: string, os: string) { browser in FAMILIES && os in Oses(browser) }

  // What a request wants

  /** The identity part of a directive; `named` is what the request itself gave. */
  datatype Wish = Wish(browser: seq<string>, os: seq<string>, doMatch: bool, profile: string, named: set<string>)

  datatype Pair = Pair(browser: seq<string>, os: seq<string>)

  function Keep(want: seq<string>, available: seq<string>): seq<string> {
    if want == [] then []
    else (if want[0] in available then [want[0]] else []) + Keep(want[1..], available)
  }

  /** What of the available is wanted; nothing named, or "random", wants it all. */
  function Choose(want: seq<string>, available: seq<string>): seq<string> {
    if want == [] || "random" in want then available else Keep(want, available)
  }

  /** The browsers for which some wanted OS is available. */
  function Pool(browsers: seq<string>, os: seq<string>): seq<string> {
    if browsers == [] then []
    else (if Choose(os, Oses(browsers[0])) != [] then [browsers[0]] else []) + Pool(browsers[1..], os)
  }

  /** The answers of `pick`: an index for a pool, and then one for the systems of the browser picked. */
  datatype Answers = Answers(first: nat -> nat, second: nat -> nat)

  ghost predicate Fair(a: Answers) {
    forall n: nat :: n > 0 ==> a.first(n) < n && a.second(n) < n
  }

  function Resolve(w: Wish, a: Answers): (r: Option<Wish>)
    requires Fair(a)
  {
    if w.browser == [] then Some(w)
    else
      var pool := Pool(Choose(w.browser, FAMILIES), w.os);
      if pool == [] then None
      else
        var browser := pool[a.first(|pool|)];
        PoolIs(Choose(w.browser, FAMILIES), w.os, browser);
        var os := Choose(w.os, Oses(browser));
        Some(w.(browser := [browser], os := if w.os == [] then [] else [os[a.second(|os|)]]))
  }

  // Soundness and completeness

  /** The list asks for the value, by name or by leaving it open. */
  predicate Wants(list: seq<string>, value: string) { list == [] || "random" in list || value in list }

  /** A browser and an OS that the request may be given. */
  predicate Legal(w: Wish, browser: string, os: string) {
    Supported(browser, os) && Wants(w.browser, browser) && Wants(w.os, os)
  }

  lemma {:induction false} KeepIs(want: seq<string>, available: seq<string>, v: string)
    ensures v in Keep(want, available) <==> v in want && v in available
  {
    if want != [] {
      KeepIs(want[1..], available, v);
    }
  }

  lemma ChooseIs(want: seq<string>, available: seq<string>, v: string)
    ensures v in Choose(want, available) <==> Wants(want, v) && v in available
  {
    KeepIs(want, available, v);
  }

  lemma {:induction false} PoolIs(browsers: seq<string>, os: seq<string>, b: string)
    ensures b in Pool(browsers, os) <==> b in browsers && Choose(os, Oses(b)) != []
  {
    if browsers != [] {
      PoolIs(browsers[1..], os, b);
    }
  }

  lemma InPool(w: Wish, b: string)
    ensures b in Pool(Choose(w.browser, FAMILIES), w.os) <==> exists o :: Legal(w, b, o)
  {
    PoolIs(Choose(w.browser, FAMILIES), w.os, b);
    ChooseIs(w.browser, FAMILIES, b);
    var oses := Choose(w.os, Oses(b));
    if b in FAMILIES && Wants(w.browser, b) && oses != [] {
      ChooseIs(w.os, Oses(b), oses[0]);
      assert Legal(w, b, oses[0]);
    }
    if o :| Legal(w, b, o) {
      ChooseIs(w.os, Oses(b), o);
    }
  }

  /** A resolution is one legal identity; where no OS is named none is given. */
  ghost predicate Resolves(w: Wish, p: Pair) {
    |p.browser| == 1 && |p.os| <= 1 && (p.os == [] <==> w.os == []) &&
    exists o :: Legal(w, p.browser[0], o) && (p.os == [] || p.os == [o])
  }

  /** Resolve succeeds exactly when some wanted browser supports some wanted OS, and then with such a pair. */
  lemma ResolveIsSound(w: Wish, a: Answers)
    requires w.browser != [] && Fair(a)
    ensures Resolve(w, a).Some? <==> exists b, o :: Legal(w, b, o)
    ensures Resolve(w, a).Some? ==> var r := Resolve(w, a).value; Resolves(w, Pair(r.browser, r.os))
  {
    var pool := Pool(Choose(w.browser, FAMILIES), w.os);
    if b, o :| Legal(w, b, o) {
      InPool(w, b);
    }
    if pool != [] {
      var b := pool[a.first(|pool|)];
      InPool(w, b);
      PoolIs(Choose(w.browser, FAMILIES), w.os, b);
      var oses := Choose(w.os, Oses(b));
      var o := oses[a.second(|oses|)];
      ChooseIs(w.os, Oses(b), o);
      assert Legal(w, b, o);
    }
  }

  lemma IndexOf(s: seq<string>, v: string) returns (i: nat)
    requires v in s
    ensures i < |s| && s[i] == v
  {
    i :| 0 <= i < |s| && s[i] == v;
  }

  /** Every legal identity is reached by some answers. */
  lemma ResolveIsComplete(w: Wish, b: string, o: string) returns (a: Answers)
    requires w.browser != [] && Legal(w, b, o)
    ensures Fair(a) && Resolve(w, a) == Some(w.(browser := [b], os := if w.os == [] then [] else [o]))
  {
    var pool := Pool(Choose(w.browser, FAMILIES), w.os);
    InPool(w, b);
    ChooseIs(w.os, Oses(b), o);
    var i := IndexOf(pool, b);
    var j := IndexOf(Choose(w.os, Oses(b)), o);
    a := Answers(n => if i < n then i else 0, n => if j < n then j else 0);
  }

  // The spec, and what Build demands of it

  function ToSpec(w: Wish, rest: SpecKey.Spec): SpecKey.Spec {
    rest.(browser := if w.browser == [] then "" else w.browser[0],
          os := if w.browser == [] || w.os == [] then "" else w.os[0])
  }

  /** The first checks of Build. */
  predicate Buildable(s: SpecKey.Spec) {
    s.browser != "" ==> s.browser in FAMILIES && (s.os != "" ==> s.os in Oses(s.browser))
  }

  lemma ResolvedIsBuildable(w: Wish, a: Answers, rest: SpecKey.Spec)
    requires Fair(a) && Resolve(w, a).Some?
    ensures Buildable(ToSpec(Resolve(w, a).value, rest))
  {
    if w.browser != [] {
      ResolveIsSound(w, a);
    }
  }

  // What a tunnel remembers

  /** A token that the schema lets through: no separator in it, and not empty. */
  predicate IsToken(t: string) { t != "" && ',' !in t && ':' !in t }

  predicate Tokens(list: seq<string>) { forall t :: t in list ==> IsToken(t) }

  predicate Validated(w: Wish) { Tokens(w.browser) && Tokens(w.os) }

  function TunnelKey(w: Wish): string { Join(w.browser, ',') + ":" + Join(w.os, ',') }

  lemma {:induction false} JoinHasNoColon(list: seq<string>)
    requires Tokens(list)
    ensures ':' !in Join(list, ',') && (Join(list, ',') == "" <==> list == [])
  {
    if list != [] {
      assert IsToken(list[0]);
      JoinHasNoColon(list[1..]);
    }
  }

  lemma JoinInjective(a: seq<string>, b: seq<string>)
    requires Tokens(a) && Tokens(b) && Join(a, ',') == Join(b, ',')
    ensures a == b
  {
    JoinHasNoColon(a);
    JoinHasNoColon(b);
    if a != [] && b != [] {
      SplitJoin(a, ',');
      SplitJoin(b, ',');
    }
  }

  lemma KeyPieces(w: Wish)
    requires Validated(w)
    ensures Split(TunnelKey(w), ':') == [Join(w.browser, ','), Join(w.os, ',')]
  {
    JoinHasNoColon(w.browser);
    JoinHasNoColon(w.os);
    SplitPiece(Join(w.browser, ','), ':', Join(w.os, ','));
    SplitPiece(Join(w.os, ','), ':', "");
  }

  /** Only equal lists share a key. */
  lemma TunnelKeyInjective(v: Wish, w: Wish)
    requires Validated(v) && Validated(w) && TunnelKey(v) == TunnelKey(w)
    ensures v.browser == w.browser && v.os == w.os
  {
    KeyPieces(v);
    KeyPieces(w);
    JoinInjective(v.browser, w.browser);
    JoinInjective(v.os, w.os);
  }

  /** What a request gets in a tunnel with these picks: the remembered identity, or a fresh resolution. */
  function ResolveWith(picks: map<string, Pair>, w: Wish, a: Answers): Option<Wish>
    requires Fair(a)
  {
    if TunnelKey(w) in picks then
      var id := picks[TunnelKey(w)];
      Some(w.(browser := id.browser, os := id.os))
    else Resolve(w, a)
  }

  /** What the tunnel remembers after it. */
  function Remembered(picks: map<string, Pair>, w: Wish, a: Answers): map<string, Pair>
    requires Fair(a)
  {
    var r := ResolveWith(picks, w, a);
    if TunnelKey(w) !in picks && r.Some? && r.value.browser != [] then
      picks[TunnelKey(w) := Pair(r.value.browser, r.value.os)]
    else picks
  }

  /** Each remembered identity is legal for the lists it was picked for. */
  ghost predicate PicksOk(picks: map<string, Pair>) {
    forall k :: k in picks ==> exists w :: Validated(w) && w.browser != [] && TunnelKey(w) == k && Resolves(w, picks[k])
  }

  class Tunnel {
    var picks: map<string, Pair>

    constructor ()
      ensures picks == map[] && PicksOk(picks)
    {
      picks := map[];
    }

    method Pick(key: string) returns (id: Option<Pair>)
      ensures id == if key in picks then Some(picks[key]) else None
    {
      id := if key in picks then Some(picks[key]) else None;
    }

    method Remember(key: string, id: Pair)
      modifies this
      ensures picks == old(picks)[key := id]
    {
      picks := picks[key := id];
    }

    /** What a tunnel knows; a request outside one starts from nothing. */
    static function Known(t: Tunnel?): map<string, Pair>
      reads t
    {
      if t == null then map[] else t.picks
    }
  }

  /** Server.resolve, in a tunnel or outside one. */
  method ResolveIn(t: Tunnel?, w: Wish, a: Answers) returns (r: Option<Wish>)
    requires Fair(a) && Validated(w) && PicksOk(Tunnel.Known(t))
    modifies t
    ensures r == ResolveWith(old(Tunnel.Known(t)), w, a) && PicksOk(Tunnel.Known(t))
    ensures t != null ==> t.picks == Remembered(old(t.picks), w, a)
  {
    var key := TunnelKey(w);
    if t != null {
      var id := t.Pick(key);
      if id.Some? {
        return Some(w.(browser := id.value.browser, os := id.value.os));
      }
    }
    r := Resolve(w, a);
    if r.Some? && t != null && r.value.browser != [] {
      PicksKept(t.picks, w, a);
      t.Remember(key, Pair(r.value.browser, r.value.os));
    }
  }

  lemma PicksKept(picks: map<string, Pair>, w: Wish, a: Answers)
    requires Fair(a) && Validated(w) && PicksOk(picks)
    ensures PicksOk(Remembered(picks, w, a))
  {
    if TunnelKey(w) !in picks && w.browser != [] {
      ResolveIsSound(w, a);
    }
    var after := Remembered(picks, w, a);
    forall k | k in after ensures exists v :: Validated(v) && v.browser != [] && TunnelKey(v) == k &&
                                              Resolves(v, after[k]) {
      if k in picks {
        var v :| Validated(v) && v.browser != [] && TunnelKey(v) == k && Resolves(v, picks[k]);
        assert after[k] == picks[k];
      }
    }
  }

  /** In a tunnel too, a request that gets an identity gets a legal one, and it gets one exactly when there is one. */
  lemma ResolveWithIsSound(picks: map<string, Pair>, w: Wish, a: Answers)
    requires Fair(a) && Validated(w) && PicksOk(picks) && w.browser != []
    ensures ResolveWith(picks, w, a).Some? <==> exists b, o :: Legal(w, b, o)
    ensures ResolveWith(picks, w, a).Some? ==>
              var r := ResolveWith(picks, w, a).value; Resolves(w, Pair(r.browser, r.os))
  {
    if TunnelKey(w) in picks {
      var id := picks[TunnelKey(w)];
      var v :| Validated(v) && v.browser != [] && TunnelKey(v) == TunnelKey(w) && Resolves(v, id);
      TunnelKeyInjective(v, w);
      var o :| Legal(v, id.browser[0], o) && (id.os == [] || id.os == [o]);
      assert Legal(w, id.browser[0], o);
    } else {
      ResolveIsSound(w, a);
    }
  }

  // A tunnel whose requests run one at a time

  datatype Turn = Turn(wish: Wish, answers: Answers)

  ghost predicate Turns(turns: seq<Turn>) {
    forall i :: 0 <= i < |turns| ==> Fair(turns[i].answers) && Validated(turns[i].wish)
  }

  ghost function PicksAfter(turns: seq<Turn>): map<string, Pair>
    requires Turns(turns)
  {
    if turns == [] then map[]
    else
      var n := |turns| - 1;
      Remembered(PicksAfter(turns[..n]), turns[n].wish, turns[n].answers)
  }

  ghost function Got(turns: seq<Turn>, i: nat): Option<Wish>
    requires Turns(turns) && i < |turns|
  {
    ResolveWith(PicksAfter(turns[..i]), turns[i].wish, turns[i].answers)
  }

  lemma {:induction false} PicksAfterOk(turns: seq<Turn>)
    requires Turns(turns)
    ensures PicksOk(PicksAfter(turns))
  {
    if turns != [] {
      var n := |turns| - 1;
      PicksAfterOk(turns[..n]);
      PicksKept(PicksAfter(turns[..n]), turns[n].wish, turns[n].answers);
    }
  }

  /** Once picked, an identity stays. */
  lemma {:induction false} PicksStay(turns: seq<Turn>, i: nat, key: string)
    requires Turns(turns) && i <= |turns| && key in PicksAfter(turns[..i])
    ensures key in PicksAfter(turns) && PicksAfter(turns)[key] == PicksAfter(turns[..i])[key]
  {
    if i < |turns| {
      var front := turns[..|turns| - 1];
      assert front[..i] == turns[..i];
      PicksStay(front, i, key);
    } else {
      assert turns[..i] == turns;
    }
  }

  /** A request that got an identity has its lists' key remembered, with that identity. */
  lemma GotIsRemembered(turns: seq<Turn>, i: nat)
    requires Turns(turns) && i < |turns| && turns[i].wish.browser != [] && Got(turns, i).Some? &&
             PicksOk(PicksAfter(turns[..i]))
    ensures var key, after, r := TunnelKey(turns[i].wish), PicksAfter(turns[..i + 1]), Got(turns, i).value;
            key in after && after[key] == Pair(r.browser, r.os)
  {
    assert turns[..i + 1][..i] == turns[..i];
    ResolveWithIsSound(PicksAfter(turns[..i]), turns[i].wish, turns[i].answers);
  }

  /** Equal lists in one tunnel always get the same legal identity, or never one. */
  lemma TunnelIsSticky(turns: seq<Turn>, i: nat, j: nat)
    requires Turns(turns) && i < j < |turns| && turns[i].wish.browser != []
    requires turns[i].wish.browser == turns[j].wish.browser && turns[i].wish.os == turns[j].wish.os
    ensures Got(turns, i).Some? <==> Got(turns, j).Some?
    ensures Got(turns, i).Some? ==>
              var r, s := Got(turns, i).value, Got(turns, j).value;
              s.browser == r.browser && s.os == r.os && Resolves(turns[i].wish, Pair(r.browser, r.os))
  {
    PicksAfterOk(turns[..i]);
    PicksAfterOk(turns[..j]);
    ResolveWithIsSound(PicksAfter(turns[..i]), turns[i].wish, turns[i].answers);
    ResolveWithIsSound(PicksAfter(turns[..j]), turns[j].wish, turns[j].answers);
    var v, w := turns[i].wish, turns[j].wish;
    assert forall b, o :: Legal(v, b, o) <==> Legal(w, b, o);
    if Got(turns, i).Some? {
      GotIsRemembered(turns, i);
      assert turns[..j][..i + 1] == turns[..i + 1];
      PicksStay(turns[..j], i + 1, TunnelKey(v));
    }
  }

  // What the User-Agent suggests

  datatype Inference = Inference(browser: string, os: string)

  function Platform(ua: string): string {
    if Contains(ua, "Android") then "android"
    else if Contains(ua, "iPhone") || Contains(ua, "iPad") || Contains(ua, "iPod") then "ios"
    else if Contains(ua, "Windows") then "windows"
    else if Contains(ua, "Macintosh") || Contains(ua, "Mac OS X") then "macos"
    else if Contains(ua, "Linux") || Contains(ua, "X11") then "linux"
    else ""
  }

  function Closest(browser: string, os: string): Inference {
    if os != "" && os !in Oses(browser) then Inference("chrome", os) else Inference(browser, os)
  }

  /** The OS, of those given, for which the family's own User-Agent is this one. */
  function AgentOs(agent: (string, string) -> string, browser: string, oses: seq<string>, ua: string): Option<string> {
    if oses == [] then None
    else if agent(browser, oses[0]) == ua then Some(oses[0])
    else AgentOs(agent, browser, oses[1..], ua)
  }

  function ByAgent(agent: (string, string) -> string, browsers: seq<string>, ua: string): Option<Inference> {
    if browsers == [] then None
    else
      var os := AgentOs(agent, browsers[0], Oses(browsers[0]), ua);
      if os.Some? then Some(Inference(browsers[0], os.value)) else ByAgent(agent, browsers[1..], ua)
  }

  predicate Marked(markers: seq<string>, ua: string) { exists m :: m in markers && Contains(ua, m) }

  function ByMarker(browsers: seq<string>, ua: string): Inference {
    if browsers == [] then Inference("", "")
    else if Marked(Markers(browsers[0]), ua) then Closest(browsers[0], Platform(ua))
    else ByMarker(browsers[1..], ua)
  }

  function Infer(agent: (string, string) -> string, ua: string): Inference {
    var exact := ByAgent(agent, DETECTION_ORDER, ua);
    if exact.Some? then exact.value else ByMarker(DETECTION_ORDER, ua)
  }

  lemma {:induction false} AgentOsIs(agent: (string, string) -> string, browser: string, oses: seq<string>, ua: string)
    ensures AgentOs(agent, browser, oses, ua).Some? <==> exists o :: o in oses && agent(browser, o) == ua
    ensures AgentOs(agent, browser, oses, ua).Some? ==>
              AgentOs(agent, browser, oses, ua).value in oses &&
              agent(browser, AgentOs(agent, browser, oses, ua).value) == ua
  {
    if oses != [] {
      AgentOsIs(agent, browser, oses[1..], ua);
    }
  }

  lemma {:induction false} ByAgentIs(agent: (string, string) -> string, browsers: seq<string>, ua: string)
    ensures ByAgent(agent, browsers, ua).Some? ==>
              var i := ByAgent(agent, browsers, ua).value;
                i.browser in browsers && i.os in Oses(i.browser) && agent(i.browser, i.os) == ua
    ensures ByAgent(agent, browsers, ua).None? ==> forall b, o :: b in browsers && o in Oses(b) ==> agent(b, o) != ua
  {
    if browsers != [] {
      AgentOsIs(agent, browsers[0], Oses(browsers[0]), ua);
      ByAgentIs(agent, browsers[1..], ua);
    }
  }

  lemma PlatformIs(ua: string)
    ensures Platform(ua) == "" || Platform(ua) in ALL_OSES
  {
  }

  lemma {:induction false} ByMarkerIs(browsers: seq<string>, ua: string)
    requires forall b :: b in browsers ==> b in FAMILIES
    ensures var i := ByMarker(browsers, ua);
            if i.browser == "" then i.os == "" else i.browser in FAMILIES && (i.os != "" ==> Supported(i.browser, i.os))
  {
    PlatformIs(ua);
    if browsers != [] {
      assert browsers[0] in FAMILIES && "" !in FAMILIES;
      ByMarkerIs(browsers[1..], ua);
    }
  }

  /** An inference that names a browser names a family, and one that supplies an OS names a pair that family supports;
      the family's own User-Agent on a system is always recognised as one that sends it there. */
  lemma InferIsSupported(agent: (string, string) -> string, ua: string)
    ensures var i := Infer(agent, ua); i.browser != "" ==>
              i.browser in FAMILIES && (i.os != "" ==> Supported(i.browser, i.os))
    ensures forall b, o :: Supported(b, o) && agent(b, o) == ua ==>
              var i := Infer(agent, ua); Supported(i.browser, i.os) && agent(i.browser, i.os) == ua
  {
    ByAgentIs(agent, DETECTION_ORDER, ua);
    ByMarkerIs(DETECTION_ORDER, ua);
  }

  // The order in which a request's identity is settled

  /** What a profile stands for, if it is listed. */
  type Catalogue = string -> Option<Inference>

  /** The identity group of onRequest: the profile, then the inference where the request names no browser. */
  function Settle(lookup: Catalogue, agent: (string, string) -> string, ua: string, w: Wish): Option<Wish> {
    if w.profile != "" && lookup(w.profile).None? then None
    else
      var pinned := if w.profile == "" then w
                    else w.(browser := [lookup(w.profile).value.browser], os := [lookup(w.profile).value.os]);
      var i := Infer(agent, ua);
      if pinned.doMatch && "browser" !in w.named && i.browser != "" then
        Some(pinned.(browser := [i.browser], os := if i.os != "" && "os" !in w.named then [i.os] else pinned.os))
      else Some(pinned)
  }

  /** Every listed profile names a pair its family supports. */
  ghost predicate Sound(lookup: Catalogue) {
    forall id :: lookup(id).Some? ==> Supported(lookup(id).value.browser, lookup(id).value.os)
  }

  lemma FamiliesAreTokens(b: string, o: string)
    requires Supported(b, o)
    ensures IsToken(b) && IsToken(o) && b != "random" && o != "random"
  {
  }

  /** A known profile settles the identity: whatever the defaults, the User-Agent and the tunnel's history, the request
      is given exactly its browser and its OS. A profile never comes with a match, by the schema. */
  lemma ProfileIsPinned(lookup: Catalogue, agent: (string, string) -> string, ua: string, w: Wish,
                        picks: map<string, Pair>, a: Answers)
    requires Sound(lookup) && lookup(w.profile).Some? && w.profile != "" && !w.doMatch && PicksOk(picks) && Fair(a)
    ensures Settle(lookup, agent, ua, w).Some?
    ensures var p, r := lookup(w.profile).value, ResolveWith(picks, Settle(lookup, agent, ua, w).value, a);
            r.Some? && r.value.browser == [p.browser] && r.value.os == [p.os]
  {
    var p, v := lookup(w.profile).value, Settle(lookup, agent, ua, w).value;
    FamiliesAreTokens(p.browser, p.os);
    assert Legal(v, p.browser, p.os);
    ResolveWithIsSound(picks, v, a);
  }

  /** What the request names itself, inference leaves alone. */
  lemma NamedIsKept(lookup: Catalogue, agent: (string, string) -> string, ua: string, w: Wish)
    requires w.profile == "" && Settle(lookup, agent, ua, w).Some?
    ensures var v := Settle(lookup, agent, ua, w).value;
            ("browser" in w.named ==> v.browser == w.browser && v.os == w.os) && ("os" in w.named ==> v.os == w.os)
  {
  }

  // From an accepted header to an identity

  /** How the schema reads a valid value: the tokens of a list, the word of a scalar. */
  datatype Readings = Readings(tokens: Directives.Shaped -> seq<string>, word: Directives.Shaped -> string)

  /** What the schema lets through: lists of tokens without separators, and profile ids that are not empty. */
  ghost predicate Schema(rules: Directives.Rules, readings: Readings) {
    forall v ::
      (rules.valid("browser", v) || rules.valid("os", v) ==> readings.tokens(v) != [] && Tokens(readings.tokens(v))) &&
      (rules.valid("profile", v) ==> readings.word(v) != "")
  }

  function WishOf(rules: Directives.Rules, readings: Readings, d: Directives.Directive): Wish {
    var f := d.fields;
    Wish(if "browser" in f then readings.tokens(f["browser"]) else [],
         if "os" in f then readings.tokens(f["os"]) else [],
         "match" in f && rules.truth(f["match"]),
         if "profile" in f then readings.word(f["profile"]) else "",
         d.fromRequest)
  }

  ghost function Wished(rules: Directives.Rules, readings: Readings, h: Directives.Header, p: Directives.Policy): Wish
    requires Directives.Canonical(h)
  {
    WishOf(rules, readings,
           Directives.Directive(Directives.Fields(rules, h, p), Directives.Requested(rules, h, p.deny).Keys))
  }

  /** An accepted header wishes for validated tokens, and so does what is settled from it. */
  lemma AcceptedIsValidated(rules: Directives.Rules, readings: Readings, h: Directives.Header, p: Directives.Policy,
                            lookup: Catalogue, agent: (string, string) -> string, ua: string)
    requires Schema(rules, readings) && Sound(lookup) && Directives.Canonical(h) && Directives.Accepts(rules, h, p)
    ensures var v := Settle(lookup, agent, ua, Wished(rules, readings, h, p)); v.Some? ==> Validated(v.value)
  {
    var w := Wished(rules, readings, h, p);
    InferIsSupported(agent, ua);
    var i := Infer(agent, ua);
    InferredAreTokens(i);
    if lookup(w.profile).Some? {
      FamiliesAreTokens(lookup(w.profile).value.browser, lookup(w.profile).value.os);
    }
  }

  lemma InferredAreTokens(i: Inference)
    requires i.browser != "" ==> i.browser in FAMILIES && (i.os != "" ==> Supported(i.browser, i.os))
    ensures i.browser != "" ==> IsToken(i.browser) && (i.os != "" ==> IsToken(i.os))
  {
    if i.browser != "" {
      assert "windows" in Oses(i.browser);
      FamiliesAreTokens(i.browser, if i.os != "" then i.os else "windows");
    }
  }

  /** An accepted header whose profile is listed is impersonated with exactly that profile's browser and OS, under every
      policy, User-Agent, tunnel history and answer of `pick`. */
  lemma AcceptedProfileIsPinned(rules: Directives.Rules, readings: Readings, h: Directives.Header, p: Directives.Policy,
                                lookup: Catalogue, agent: (string, string) -> string, ua: string,
                                picks: map<string, Pair>, a: Answers)
    requires Schema(rules, readings) && Sound(lookup) && PicksOk(picks) && Fair(a)
    requires Directives.Canonical(h) && Directives.Accepts(rules, h, p)
    requires var w := Wished(rules, readings, h, p); w.profile != "" && lookup(w.profile).Some?
    ensures var w := Wished(rules, readings, h, p);
            var v := Settle(lookup, agent, ua, w);
            v.Some? && var r := ResolveWith(picks, v.value, a);
            r.Some? && r.value.browser == [lookup(w.profile).value.browser] &&
            r.value.os == [lookup(w.profile).value.os]
  {
    ProfileIsPinned(lookup, agent, ua, Wished(rules, readings, h, p), picks, a);
  }

  /** The request's own header asks for the value, under one of the two list directives. */
  ghost predicate Asks(rules: Directives.Rules, readings: Readings, h: Directives.Header, key: string, value: string)
    requires Directives.Canonical(h) && Directives.Names(h, key)
  {
    var own := Directives.Shape(rules, key, h[Directives.NameOf(h, key)]);
    own.Some? && Wants(readings.tokens(own.value), value)
  }

  /** What the request's own header asks for is what its wish holds, whatever the policy's defaults. */
  lemma NamedIsWished(rules: Directives.Rules, readings: Readings, h: Directives.Header, p: Directives.Policy)
    requires Schema(rules, readings) && Directives.Canonical(h) && Directives.Accepts(rules, h, p)
    ensures var w := Wished(rules, readings, h, p);
            (Directives.Names(h, "browser") ==>
              w.profile == "" && "browser" in w.named && w.browser != [] &&
              forall b :: Wants(w.browser, b) <==> Asks(rules, readings, h, "browser", b)) &&
            (Directives.Names(h, "os") ==>
              w.profile == "" && "os" in w.named && w.os != [] &&
              forall o :: Wants(w.os, o) <==> Asks(rules, readings, h, "os", o))
  {
    Configuration.FieldsComeFrom(rules, h, p, "browser");
    Configuration.FieldsComeFrom(rules, h, p, "os");
    hide Wants;
    var f := Directives.Fields(rules, h, p);
    assert "browser" in f ==> rules.valid("browser", f["browser"]);
    assert "os" in f ==> rules.valid("os", f["os"]);
    assert Directives.Names(h, "browser") || Directives.Names(h, "os") ==> "profile" !in f;
  }

  lemma BareStaysBare(picks: map<string, Pair>, w: Wish, a: Answers)
    requires Fair(a) && Validated(w) && PicksOk(picks) && w.browser == []
    ensures ResolveWith(picks, w, a) == Some(w)
  {
    if TunnelKey(w) in picks {
      var v :| Validated(v) && v.browser != [] && TunnelKey(v) == TunnelKey(w) && Resolves(v, picks[TunnelKey(w)]);
      TunnelKeyInjective(v, w);
    }
  }

  /** What is given is of what is wanted. */
  lemma GivenIsWanted(picks: map<string, Pair>, w: Wish, a: Answers)
    requires Fair(a) && Validated(w) && PicksOk(picks)
    ensures var r := ResolveWith(picks, w, a);
            (w.browser == [] ==> r == Some(w)) &&
            (w.browser != [] && r.Some? ==> |r.value.browser| == 1 && Wants(w.browser, r.value.browser[0])) &&
            (w.browser != [] && r.Some? && w.os != [] ==>
              |r.value.os| == 1 && Wants(w.os, r.value.os[0]) && Supported(r.value.browser[0], r.value.os[0])) &&
            (w.browser != [] ==> (r.Some? <==> exists b, o :: Supported(b, o) && Wants(w.browser, b) && Wants(w.os, o)))
  {
    hide Supported;
    hide Wants;
    if w.browser == [] {
      BareStaysBare(picks, w, a);
    } else {
      ResolveWithIsSound(picks, w, a);
      if b, o :| Supported(b, o) && Wants(w.browser, b) && Wants(w.os, o) {
        assert Legal(w, b, o);
      }
    }
  }

  /** What a request names is what it is given: a browser or an OS that its own header asks for is honoured whatever its
      User-Agent, the policy's defaults, its tunnel's history and the answers of `pick`; and if it names both, it is
      turned away exactly when no browser it asks for supports an OS it asks for. */
  lemma NamedIsHonoured(rules: Directives.Rules, readings: Readings, h: Directives.Header, p: Directives.Policy,
                        lookup: Catalogue, agent: (string, string) -> string, ua: string, picks: map<string, Pair>,
                        a: Answers)
    requires Schema(rules, readings) && Sound(lookup) && PicksOk(picks) && Fair(a)
    requires Directives.Canonical(h) && Directives.Accepts(rules, h, p)
    requires Directives.Names(h, "browser") || Directives.Names(h, "os")
    ensures var v := Settle(lookup, agent, ua, Wished(rules, readings, h, p));
            v.Some? &&
            var r := ResolveWith(picks, v.value, a);
            (r.Some? && Directives.Names(h, "browser") ==>
              |r.value.browser| == 1 && Asks(rules, readings, h, "browser", r.value.browser[0])) &&
            (r.Some? && Directives.Names(h, "os") && r.value.browser != [] ==>
              |r.value.os| == 1 && Asks(rules, readings, h, "os", r.value.os[0]) &&
              Supported(r.value.browser[0], r.value.os[0])) &&
            (Directives.Names(h, "browser") && Directives.Names(h, "os") ==>
              (r.Some? <==> exists b, o ::
                Supported(b, o) && Asks(rules, readings, h, "browser", b) && Asks(rules, readings, h, "os", o)))
  {
    hide Wished;
    hide ResolveWith;
    hide Asks;
    hide Wants;
    hide Supported;
    hide Directives.Names;
    hide Directives.Accepts;
    hide Directives.Canonical;
    hide Schema;
    hide Validated;
    var w := Wished(rules, readings, h, p);
    NamedIsWished(rules, readings, h, p);
    AcceptedIsValidated(rules, readings, h, p, lookup, agent, ua);
    NamedIsKept(lookup, agent, ua, w);
    assert Settle(lookup, agent, ua, w).Some?;
    hide Settle;
    GivenIsWanted(picks, Settle(lookup, agent, ua, w).value, a);
  }
}
