/** What a request's spec is, from its headers and its User-Agent on: the identity that is inferred, and the rest. */
module Impersonation {
  import opened Configuration
  import opened Exchange
  import opened Inference
  import opened Options
  import D = Directives
  import I = Identity
  import SpecKey

  /** The request asks to be matched, itself or by a default, and names no browser. */
  ghost predicate AsksToMatch(s: Settings, r: Request)
    requires D.Canonical(r.header)
  {
    var f := D.Fields(s.rules, r.header, s.policy);
    "match" in f && s.rules.truth(f["match"]) && !D.Names(r.header, "browser")
  }

  ghost function Wish(s: Settings, r: Request): I.Wish
    requires D.Canonical(r.header)
  {
    I.WishOf(s.rules, s.readings, DirectiveOf(s, r))
  }

  /** Such a request has no profile, so its browser is the inferred one, if there is one, and its system too if it names
      none. */
  lemma MatchedWish(s: Settings, r: Request)
    requires D.Canonical(r.header) && D.Accepts(s.rules, r.header, s.policy) && AsksToMatch(s, r)
    ensures var w, i := Wish(s, r), I.Infer(s.agent, r.agent);
            WishFor(s, r) == Some(
              if i.browser == "" then w
              else w.(browser := [i.browser], os := if i.os != "" && !D.Names(r.header, "os") then [i.os] else w.os))
  {
    FieldsComeFrom(s.rules, r.header, s.policy, "browser");
    FieldsComeFrom(s.rules, r.header, s.policy, "os");
    hide I.Infer;
    hide D.Fields;
    hide D.Requested;
    hide D.Names;
  }

  /** What is given to a request whose settled wish is for one browser, and for one system or none. */
  lemma OneBrowser(w: I.Wish, picks: map<string, I.Pair>, a: I.Answers, browser: string)
    requires I.Fair(a) && I.Validated(w) && I.PicksOk(picks) && w.browser == [browser] && browser != "random"
    ensures var r := I.ResolveWith(picks, w, a); r.Some? ==> r.value.browser == [browser]
  {
    I.GivenIsWanted(picks, w, a);
    hide I.ResolveWith;
    assert forall b :: I.Wants(w.browser, b) <==> b == browser;
  }

  lemma OneSystem(w: I.Wish, picks: map<string, I.Pair>, a: I.Answers, browser: string, os: string)
    requires I.Fair(a) && I.Validated(w) && I.PicksOk(picks) && w.browser == [browser] && browser != "random"
    requires w.os == [os] && os != "random" && I.Supported(browser, os)
    ensures var r := I.ResolveWith(picks, w, a); r.Some? && r.value.browser == [browser] && r.value.os == [os]
  {
    OneBrowser(w, picks, a, browser);
    I.GivenIsWanted(picks, w, a);
    hide I.ResolveWith;
    hide I.Supported;
    assert I.Wants(w.browser, browser) && forall o :: I.Wants(w.os, o) <==> o == os;
  }

  lemma NoSystem(w: I.Wish, picks: map<string, I.Pair>, a: I.Answers, browser: string)
    requires I.Fair(a) && I.Validated(w) && I.PicksOk(picks) && w.browser == [browser] && browser in I.FAMILIES
    requires w.os == []
    ensures var r := I.ResolveWith(picks, w, a); r.Some? && r.value.browser == [browser] && r.value.os == []
  {
    assert browser != "random" && I.Supported(browser, "windows") by {
      assert "windows" in I.Oses(browser);
    }
    OneBrowser(w, picks, a, browser);
    I.ResolveWithIsSound(picks, w, a);
    hide I.ResolveWith;
    assert I.Legal(w, browser, "windows");
  }

  lemma SpecIsResolved(s: Settings, r: Request, picks: map<string, I.Pair>, a: I.Answers)
    requires D.Canonical(r.header) && I.Fair(a) && WishFor(s, r).Some?
    ensures var got, spec := I.ResolveWith(picks, WishFor(s, r).value, a), SpecFor(s, r, picks, a);
            (spec.Some? <==> got.Some?) &&
            (spec.Some? ==>
              spec.value.browser == (if got.value.browser == [] then "" else got.value.browser[0]) &&
              spec.value.os == if got.value.browser == [] || got.value.os == [] then "" else got.value.os[0])
  {
    hide WishFor;
    hide I.ResolveWith;
    hide DirectiveOf;
  }

  /** What is inferred reaches the spec: the browser, and the system if the request names none. */
  lemma InferredReachesTheSpec(s: Settings, r: Request, picks: map<string, I.Pair>, a: I.Answers)
    requires Sane(s) && D.Canonical(r.header) && I.Fair(a) && I.PicksOk(picks)
    requires D.Accepts(s.rules, r.header, s.policy) && AsksToMatch(s, r) && I.Infer(s.agent, r.agent).browser != ""
    ensures var i, spec := I.Infer(s.agent, r.agent), SpecFor(s, r, picks, a);
            (spec.Some? ==> spec.value.browser == i.browser) &&
            (!D.Names(r.header, "os") && i.os != "" ==> spec.Some? && spec.value.os == i.os) &&
            (!D.Names(r.header, "os") && i.os == "" && "os" !in D.Fields(s.rules, r.header, s.policy) ==>
              spec.Some? && spec.value.os == "")
  {
    var i := I.Infer(s.agent, r.agent);
    MatchedWish(s, r);
    I.AcceptedIsValidated(s.rules, s.readings, r.header, s.policy, s.lookup, s.agent, r.agent);
    I.InferIsSupported(s.agent, r.agent);
    assert Wish(s, r).os == [] <== "os" !in D.Fields(s.rules, r.header, s.policy);
    var v := WishFor(s, r).value;
    SpecIsResolved(s, r, picks, a);
    hide I.Infer;
    hide D.Accepts;
    hide AsksToMatch;
    hide Wish;
    hide WishFor;
    hide SpecFor;
    hide I.ResolveWith;
    hide I.Validated;
    assert i.browser != "random" && (I.Supported(i.browser, i.os) ==> i.os != "random") by {
      if I.Supported(i.browser, i.os) {
        I.FamiliesAreTokens(i.browser, i.os);
      }
    }
    OneBrowser(v, picks, a, i.browser);
    if !D.Names(r.header, "os") && i.os != "" {
      OneSystem(v, picks, a, i.browser, i.os);
    } else if v.os == [] {
      NoSystem(v, picks, a, i.browser);
    }
  }

  /** A request that asks to be matched and sends a User-Agent that is a family's own on some system is given a browser
      whose own it is, on a system on which it is, if it names none itself. */
  lemma OwnAgentReachesTheSpec(s: Settings, r: Request, picks: map<string, I.Pair>, a: I.Answers)
    requires Sane(s) && D.Canonical(r.header) && I.Fair(a) && I.PicksOk(picks)
    requires D.Accepts(s.rules, r.header, s.policy) && AsksToMatch(s, r) && IsOwn(s.agent, r.agent)
    ensures var spec := SpecFor(s, r, picks, a);
            (spec.Some? ==> exists o :: IsPair(spec.value.browser, o) && s.agent(spec.value.browser, o) == r.agent) &&
            (!D.Names(r.header, "os") ==>
              spec.Some? && IsPair(spec.value.browser, spec.value.os) &&
              s.agent(spec.value.browser, spec.value.os) == r.agent)
  {
    OwnIsFound(s.agent, r.agent);
    assert IsPair(I.Infer(s.agent, r.agent).browser, I.Infer(s.agent, r.agent).os);
    InferredReachesTheSpec(s, r, picks, a);
    hide SpecFor;
    hide I.Infer;
  }

  /** One that sends any other User-Agent is given the family whose marker that says, Edge before Firefox before Chrome,
      on the system it says, if it names none itself; but Chrome where it says Edge and iOS. */
  lemma MarkerReachesTheSpec(s: Settings, r: Request, picks: map<string, I.Pair>, a: I.Answers)
    requires Sane(s) && D.Canonical(r.header) && I.Fair(a) && I.PicksOk(picks)
    requires D.Accepts(s.rules, r.header, s.policy) && AsksToMatch(s, r) && !IsOwn(s.agent, r.agent)
    requires SaysEdge(r.agent) || SaysFirefox(r.agent) || SaysChrome(r.agent)
    ensures var ua, spec := r.agent, SpecFor(s, r, picks, a);
            (spec.Some? ==>
              spec.value.browser ==
                if SaysEdge(ua) then (if SaysSystem(ua, "ios") then "chrome" else "edge")
                else if SaysFirefox(ua) then "firefox" else "chrome") &&
            (!D.Names(r.header, "os") ==>
              forall os :: os in ["android", "ios", "windows", "macos", "linux"] && SaysSystem(ua, os) ==>
                spec.Some? && spec.value.os == os) &&
            (!D.Names(r.header, "os") && "os" !in D.Fields(s.rules, r.header, s.policy) &&
             (forall os :: os in ["android", "ios", "windows", "macos", "linux"] ==> !SaysSystem(ua, os)) ==>
              spec.Some? && spec.value.os == "")
  {
    MarkersAreRead(s.agent, r.agent);
    InferredReachesTheSpec(s, r, picks, a);
    hide SpecFor;
    hide I.Infer;
    hide SaysSystem;
  }

  lemma WishForIs(s: Settings, r: Request, ua: string)
    requires D.Canonical(r.header)
    ensures WishFor(s, r.(agent := ua)) ==
              if D.Accepts(s.rules, r.header, s.policy) then I.Settle(s.lookup, s.agent, ua, Wish(s, r)) else None
  {
    hide I.Settle;
    hide I.WishOf;
    hide D.Accepts;
  }

  lemma SpecForAlike(s: Settings, r: Request, ua: string, picks: map<string, I.Pair>, a: I.Answers)
    requires D.Canonical(r.header) && I.Fair(a) && WishFor(s, r.(agent := ua)) == WishFor(s, r)
    ensures SpecFor(s, r.(agent := ua), picks, a) == SpecFor(s, r, picks, a)
  {
    hide WishFor;
    hide I.ResolveWith;
    assert DirectiveOf(s, r.(agent := ua)) == DirectiveOf(s, r);
    hide DirectiveOf;
  }

  lemma SettlesAlike(s: Settings, w: I.Wish, ua: string, other: string)
    requires !(w.doMatch && "browser" !in w.named)
    ensures I.Settle(s.lookup, s.agent, ua, w) == I.Settle(s.lookup, s.agent, other, w)
  {
    hide I.Infer;
  }

  lemma WishIsUnmatched(s: Settings, r: Request)
    requires D.Canonical(r.header) && D.Accepts(s.rules, r.header, s.policy) && !AsksToMatch(s, r)
    ensures !(Wish(s, r).doMatch && "browser" !in Wish(s, r).named)
  {
    FieldsComeFrom(s.rules, r.header, s.policy, "browser");
    hide D.Fields;
    hide D.Requested;
    hide D.Names;
    hide D.Accepts;
  }

  /** One that does not ask to be matched, or that names its browser, is given the same whatever User-Agent it sends. */
  lemma UnmatchedIgnoresTheAgent(s: Settings, r: Request, ua: string, picks: map<string, I.Pair>, a: I.Answers)
    requires D.Canonical(r.header) && I.Fair(a) && (D.Accepts(s.rules, r.header, s.policy) ==> !AsksToMatch(s, r))
    ensures SpecFor(s, r.(agent := ua), picks, a) == SpecFor(s, r, picks, a)
  {
    WishForIs(s, r, r.agent);
    WishForIs(s, r, ua);
    if D.Accepts(s.rules, r.header, s.policy) {
      WishIsUnmatched(s, r);
      SettlesAlike(s, Wish(s, r), r.agent, ua);
    }
    assert r.(agent := r.agent) == r;
    hide I.Settle;
    hide Wish;
    hide D.Accepts;
    hide AsksToMatch;
    SpecForAlike(s, r, ua, picks, a);
  }

  /** So is one whose User-Agent is nobody's own and says no marker. */
  lemma UnknownAgentsAreAlike(s: Settings, r: Request, ua: string, picks: map<string, I.Pair>, a: I.Answers)
    requires D.Canonical(r.header) && I.Fair(a)
    requires forall u :: u in [r.agent, ua] ==>
               !IsOwn(s.agent, u) && !SaysEdge(u) && !SaysFirefox(u) && !SaysChrome(u)
    ensures SpecFor(s, r.(agent := ua), picks, a) == SpecFor(s, r, picks, a)
  {
    assert r.agent in [r.agent, ua] && ua in [r.agent, ua];
    MarkersAreRead(s.agent, r.agent);
    MarkersAreRead(s.agent, ua);
    hide I.Infer;
    WishForIs(s, r, r.agent);
    WishForIs(s, r, ua);
    assert r.(agent := r.agent) == r;
    hide D.Accepts;
    hide Wish;
    SpecForAlike(s, r, ua, picks, a);
  }

  /** A WebSocket upgrade goes over HTTP/1, unless the directives force something; nothing else of the rest changes. */
  lemma UpgradesForceHttp1(s: Settings, r: Request, picks: map<string, I.Pair>, a: I.Answers)
    requires D.Canonical(r.header) && I.Fair(a) && SpecFor(s, r, picks, a).Some?
    ensures var spec, rest := SpecFor(s, r, picks, a).value, s.rest(DirectiveOf(s, r));
            spec.forceHttp == (if rest.forceHttp != "" then rest.forceHttp else if r.upgrades then "1" else "") &&
            spec == rest.(browser := spec.browser, os := spec.os, forceHttp := spec.forceHttp)
  {
    hide WishFor;
    hide I.ResolveWith;
    hide DirectiveOf;
  }

  /** The list leaves the value open, by "random" or by naming nothing, or names it. */
  predicate Open(list: seq<string>, value: string) { list == [] || "random" in list || value in list }

  ghost predicate HasLegal(browsers: seq<string>, oses: seq<string>) {
    exists b, o :: IsPair(b, o) && Open(browsers, b) && Open(oses, o)
  }

  lemma LegalIsOpen(w: I.Wish)
    ensures (exists b, o :: I.Legal(w, b, o)) <==> HasLegal(w.browser, w.os)
    ensures forall b, o :: I.Legal(w, b, o) <==> IsPair(b, o) && Open(w.browser, b) && Open(w.os, o)
  {
    forall b, o ensures I.Legal(w, b, o) <==> IsPair(b, o) && Open(w.browser, b) && Open(w.os, o) {
      PairsAreSupported(b, o);
    }
    hide I.Supported;
    hide I.Wants;
    hide Open;
    hide IsPair;
    if b, o :| IsPair(b, o) && Open(w.browser, b) && Open(w.os, o) {
      assert I.Legal(w, b, o);
    }
    if b, o :| I.Legal(w, b, o) {
      assert IsPair(b, o);
    }
  }

  /** Without a match and without a profile, the merged fields decide: a request with no browser in them is not
      impersonated; one with some is given a pair that they leave open, and is turned away exactly if there is none. */
  lemma WishedReachesTheSpec(s: Settings, r: Request, picks: map<string, I.Pair>, a: I.Answers)
    requires Sane(s) && D.Canonical(r.header) && I.Fair(a) && I.PicksOk(picks)
    requires D.Accepts(s.rules, r.header, s.policy) && !AsksToMatch(s, r)
    requires "profile" !in D.Fields(s.rules, r.header, s.policy)
    ensures var f, spec := D.Fields(s.rules, r.header, s.policy), SpecFor(s, r, picks, a);
            var browsers := if "browser" in f then s.readings.tokens(f["browser"]) else [];
            var oses := if "os" in f then s.readings.tokens(f["os"]) else [];
            (browsers == [] ==> spec.Some? && spec.value.browser == "" && spec.value.os == "") &&
            (browsers != [] ==> (spec.Some? <==> HasLegal(browsers, oses))) &&
            (browsers != [] && spec.Some? && oses == [] ==>
              spec.value.os == "" && Open(browsers, spec.value.browser) && IsPair(spec.value.browser, "windows")) &&
            (browsers != [] && spec.Some? && oses != [] ==>
              IsPair(spec.value.browser, spec.value.os) && Open(browsers, spec.value.browser) &&
              Open(oses, spec.value.os))
  {
    WishIsUnmatched(s, r);
    WishForIs(s, r, r.agent);
    assert r.(agent := r.agent) == r;
    I.AcceptedIsValidated(s.rules, s.readings, r.header, s.policy, s.lookup, s.agent, r.agent);
    var w := Wish(s, r);
    assert WishFor(s, r) == Some(w) by {
      hide I.Infer;
    }
    SpecIsResolved(s, r, picks, a);
    hide WishFor;
    hide SpecFor;
    hide D.Accepts;
    hide AsksToMatch;
    hide I.Settle;
    WishedIsOpen(w, picks, a);
  }

  lemma WishedIsOpen(w: I.Wish, picks: map<string, I.Pair>, a: I.Answers)
    requires I.Fair(a) && I.Validated(w) && I.PicksOk(picks)
    ensures var r := I.ResolveWith(picks, w, a);
            (w.browser == [] ==> r == Some(w)) &&
            (w.browser != [] ==> (r.Some? <==> HasLegal(w.browser, w.os))) &&
            (w.browser != [] && r.Some? ==>
              |r.value.browser| == 1 && Open(w.browser, r.value.browser[0]) && IsPair(r.value.browser[0], "windows") &&
              (w.os == [] ==> r.value.os == []) &&
              (w.os != [] ==> |r.value.os| == 1 && IsPair(r.value.browser[0], r.value.os[0]) &&
                              Open(w.os, r.value.os[0])))
  {
    if w.browser == [] {
      I.BareStaysBare(picks, w, a);
    } else {
      LegalIsOpen(w);
      I.ResolveWithIsSound(picks, w, a);
      hide I.ResolveWith;
      hide I.Legal;
      hide Open;
      hide HasLegal;
    }
  }

  /** The specs that pass Build's first checks: none or a family, and for a family none or a system it runs on. */
  lemma BuildableIsPair(spec: SpecKey.Spec)
    ensures I.Buildable(spec) <==>
              spec.browser == "" ||
              (IsPair(spec.browser, "windows") && (spec.os == "" || IsPair(spec.browser, spec.os)))
  {
    PairsAreSupported(spec.browser, spec.os);
    PairsAreSupported(spec.browser, "windows");
    assert spec.browser in I.FAMILIES ==> "windows" in I.Oses(spec.browser);
  }

  /** A profile among the merged fields decides alone: listed, its browser and its system are given; not listed, the
      request is turned away. */
  lemma ProfileDecides(s: Settings, r: Request, picks: map<string, I.Pair>, a: I.Answers)
    requires Sane(s) && D.Canonical(r.header) && I.Fair(a) && I.PicksOk(picks)
    requires D.Accepts(s.rules, r.header, s.policy) && "profile" in D.Fields(s.rules, r.header, s.policy)
    ensures var id := s.readings.word(D.Fields(s.rules, r.header, s.policy)["profile"]);
            var spec := SpecFor(s, r, picks, a);
            (spec.Some? <==> s.lookup(id).Some?) &&
            (spec.Some? ==>
              spec.value.browser == s.lookup(id).value.browser && spec.value.os == s.lookup(id).value.os)
  {
    ProfileIsWished(s, r);
    if s.lookup(Wish(s, r).profile).Some? {
      ProfileReachesTheSpec(s, r, picks, a);
    } else {
      WishForIs(s, r, r.agent);
      assert r.(agent := r.agent) == r;
      assert WishFor(s, r) == None by {
        hide I.Infer;
      }
    }
    hide D.Fields;
    hide WishFor;
  }

  lemma ProfileIsWished(s: Settings, r: Request)
    requires Sane(s) && D.Canonical(r.header) && D.Accepts(s.rules, r.header, s.policy)
    requires "profile" in D.Fields(s.rules, r.header, s.policy)
    ensures Wish(s, r).profile == s.readings.word(D.Fields(s.rules, r.header, s.policy)["profile"]) != ""
  {
    var f := D.Fields(s.rules, r.header, s.policy);
    assert s.rules.valid("profile", f["profile"]);
  }
}
