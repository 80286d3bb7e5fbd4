/** What a User-Agent stands for, told by the text in it. */
module Inference {
  import opened Identity
  import opened Texts

  /** The text stands somewhere in the User-Agent. */
  ghost predicate Says(ua: string, text: string) { exists front, back :: ua == front + text + back }

  lemma SaysIs(ua: string, text: string)
    ensures Contains(ua, text) <==> Says(ua, text)
  {
    if Contains(ua, text) {
      var i :| 0 <= i <= |ua| && text <= ua[i..];
      assert ua == ua[..i] + text + ua[i + |text|..];
    }
    if Says(ua, text) {
      var front, back :| ua == front + text + back;
      assert text <= ua[|front|..];
    }
  }

  /** The pairs of a family and a system that it runs on. */
  predicate IsPair(browser: string, os: string) {
    (browser in {"chrome", "firefox"} && os in {"windows", "macos", "linux", "android", "ios"}) ||
    (browser == "edge" && os in {"windows", "macos", "linux", "android"})
  }

  lemma PairsAreSupported(browser: string, os: string)
    ensures Supported(browser, os) <==> IsPair(browser, os)
  {
  }

  ghost predicate SaysEdge(ua: string) { Says(ua, "Edg/") || Says(ua, "EdgA/") || Says(ua, "EdgiOS/") }

  ghost predicate SaysFirefox(ua: string) { Says(ua, "Firefox/") || Says(ua, "FxiOS/") }

  ghost predicate SaysChrome(ua: string) { Says(ua, "Chrome/") || Says(ua, "CriOS/") || Says(ua, "Chromium/") }

  ghost predicate SaysApple(ua: string) { Says(ua, "iPhone") || Says(ua, "iPad") || Says(ua, "iPod") }

  /** What the User-Agent says of its system, most telling text first. */
  ghost predicate SaysSystem(ua: string, os: string) {
    match os
    case "android" => Says(ua, "Android")
    case "ios" => !Says(ua, "Android") && SaysApple(ua)
    case "windows" => !Says(ua, "Android") && !SaysApple(ua) && Says(ua, "Windows")
    case "macos" => !Says(ua, "Android") && !SaysApple(ua) && !Says(ua, "Windows") &&
                    (Says(ua, "Macintosh") || Says(ua, "Mac OS X"))
    case "linux" => !Says(ua, "Android") && !SaysApple(ua) && !Says(ua, "Windows") && !Says(ua, "Macintosh") &&
                    !Says(ua, "Mac OS X") && (Says(ua, "Linux") || Says(ua, "X11"))
    case _ => false
  }

  lemma PlatformIsSaid(ua: string)
    ensures forall os :: os in ["android", "ios", "windows", "macos", "linux"] ==>
              (Platform(ua) == os <==> SaysSystem(ua, os))
  {
    SaysIs(ua, "Android");
    SaysIs(ua, "iPhone");
    SaysIs(ua, "iPad");
    SaysIs(ua, "iPod");
    SaysIs(ua, "Windows");
    SaysIs(ua, "Macintosh");
    SaysIs(ua, "Mac OS X");
    SaysIs(ua, "Linux");
    SaysIs(ua, "X11");
    hide Contains;
    hide Says;
  }

  lemma MarkersAreSaid(ua: string)
    ensures Marked(Markers("edge"), ua) <==> SaysEdge(ua)
    ensures Marked(Markers("firefox"), ua) <==> SaysFirefox(ua)
    ensures Marked(Markers("chrome"), ua) <==> SaysChrome(ua)
  {
    SaysIs(ua, "Edg/");
    SaysIs(ua, "EdgA/");
    SaysIs(ua, "EdgiOS/");
    SaysIs(ua, "Firefox/");
    SaysIs(ua, "FxiOS/");
    SaysIs(ua, "Chrome/");
    SaysIs(ua, "CriOS/");
    SaysIs(ua, "Chromium/");
    hide Contains;
    hide Says;
    assert Markers("edge")[0] == "Edg/" && Markers("edge")[1] == "EdgA/" && Markers("edge")[2] == "EdgiOS/";
    assert Markers("firefox")[0] == "Firefox/" && Markers("firefox")[1] == "FxiOS/";
    assert Markers("chrome")[0] == "Chrome/" && Markers("chrome")[1] == "CriOS/" && Markers("chrome")[2] == "Chromium/";
  }

  /** The User-Agent is a family's own on one of its systems. */
  ghost predicate IsOwn(agent: (string, string) -> string, ua: string) {
    exists b, o :: IsPair(b, o) && agent(b, o) == ua
  }

  lemma OwnIsFound(agent: (string, string) -> string, ua: string)
    ensures ByAgent(agent, DETECTION_ORDER, ua).Some? <==> IsOwn(agent, ua)
    ensures IsOwn(agent, ua) ==> var i := Infer(agent, ua); IsPair(i.browser, i.os) && agent(i.browser, i.os) == ua
  {
    ByAgentIs(agent, DETECTION_ORDER, ua);
    InferIsSupported(agent, ua);
    var i := Infer(agent, ua);
    PairsAreSupported(i.browser, i.os);
    forall b, o ensures Supported(b, o) <==> IsPair(b, o) {
      PairsAreSupported(b, o);
    }
    hide Infer;
    if b, o :| IsPair(b, o) && agent(b, o) == ua {
      assert b in DETECTION_ORDER && o in Oses(b);
    }
  }

  /** A User-Agent that is nobody's own stands for the family whose marker it says, Edge before Firefox before Chrome,
      and for the system it says; Edge on iOS is taken for Chrome. Without a marker it stands for nothing. */
  lemma MarkersAreRead(agent: (string, string) -> string, ua: string)
    requires !IsOwn(agent, ua)
    ensures var i := Infer(agent, ua);
            (SaysEdge(ua) ==> i.browser == if SaysSystem(ua, "ios") then "chrome" else "edge") &&
            (!SaysEdge(ua) && SaysFirefox(ua) ==> i.browser == "firefox") &&
            (!SaysEdge(ua) && !SaysFirefox(ua) && SaysChrome(ua) ==> i.browser == "chrome") &&
            (!SaysEdge(ua) && !SaysFirefox(ua) && !SaysChrome(ua) ==> i == Inference("", "")) &&
            (i.browser != "" ==> i.os == "" || i.os in ["android", "ios", "windows", "macos", "linux"]) &&
            (i.browser != "" ==>
              forall os :: os in ["android", "ios", "windows", "macos", "linux"] ==>
                (i.os == os <==> SaysSystem(ua, os)))
  {
    OwnIsFound(agent, ua);
    MarkersAreSaid(ua);
    PlatformIsSaid(ua);
    PlatformIs(ua);
    ByMarkerUnfolds(ua);
    hide Platform;
    hide ByAgent;
    hide ByMarker;
    hide Markers;
    hide Marked;
    hide SaysEdge;
    hide SaysFirefox;
    hide SaysChrome;
    hide SaysSystem;
  }

  lemma ByMarkerUnfolds(ua: string)
    ensures ByMarker(DETECTION_ORDER, ua) ==
              if Marked(Markers("edge"), ua) then Closest("edge", Platform(ua))
              else if Marked(Markers("firefox"), ua) then Closest("firefox", Platform(ua))
              else if Marked(Markers("chrome"), ua) then Closest("chrome", Platform(ua))
              else Inference("", "")
  {
    hide Marked;
    hide Platform;
    hide Closest;
    assert DETECTION_ORDER[1..] == ["firefox", "chrome"] && DETECTION_ORDER[1..][1..] == ["chrome"];
    assert ["chrome"][1..] == [];
    assert ByMarker(["chrome"], ua) ==
           if Marked(Markers("chrome"), ua) then Closest("chrome", Platform(ua)) else Inference("", "");
    assert ByMarker(["firefox", "chrome"], ua) ==
           if Marked(Markers("firefox"), ua) then Closest("firefox", Platform(ua)) else ByMarker(["chrome"], ua);
  }
}
