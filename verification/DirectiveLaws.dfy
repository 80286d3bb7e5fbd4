/** What the headers and the configured names mean, told by the text in them. */
module DirectiveLaws {
  import opened Configuration
  import opened Directives
  import opened Options
  import opened Texts

  // Case and space

  /** The white space of `strings.TrimSpace`. */
  lemma SpacesAre(c: char)
    ensures IsSpace(c) <==>
              c in "\t\n\U{0b}\U{0c}\r \U{85}\U{a0}\U{1680}\U{2000}\U{2001}\U{2002}\U{2003}\U{2004}\U{2005}\U{2006}" ||
              c in "\U{2007}\U{2008}\U{2009}\U{200a}\U{2028}\U{2029}\U{202f}\U{205f}\U{3000}"
  {
  }

  lemma {:induction false} TrimsFront(front: string, s: string)
    requires forall c :: c in front ==> IsSpace(c)
    ensures TrimSpace(front + s) == TrimSpace(s)
    decreases |front|
  {
    if front == "" {
      assert front + s == s;
    } else {
      HeadAndTail(front, s);
      TrimsFront(front[1..], s);
    }
  }

  lemma {:induction false} TrimsBack(core: string, back: string)
    requires core != "" && !IsSpace(core[0]) && !IsSpace(core[|core| - 1]) && forall c :: c in back ==> IsSpace(c)
    ensures TrimSpace(core + back) == core
    decreases |back|
  {
    var s := core + back;
    if back == "" {
      assert s == core;
    } else {
      assert s[0] == core[0] && s[|s| - 1] == back[|back| - 1] && s[..|s| - 1] == core + back[..|back| - 1];
      TrimsBack(core, back[..|back| - 1]);
    }
  }

  /** White space around a text is trimmed, and nothing else. */
  lemma SpaceIsTrimmed(front: string, core: string, back: string)
    requires core != "" && !IsSpace(core[0]) && !IsSpace(core[|core| - 1])
    requires forall c :: c in front + back ==> IsSpace(c)
    ensures TrimSpace(front + core + back) == core
  {
    Joins(front, core, back);
    assert forall c :: c in front || c in back ==> c in front + back;
    TrimsFront(front, core + back);
    TrimsBack(core, back);
  }

  // Names

  /** A header gives the directive that stands after the prefix, whatever the case of either. */
  lemma NameIsFor(n: string, key: string)
    ensures IsFor(n, key) <==> Lower(n) == "x-tip-" + key
  {
    if HasPrefix(n) {
      PrefixAndKey(n);
    }
    if Lower(n) == "x-tip-" + key {
      LowerJoins(n[..6], n[6..]);
      assert n == n[..6] + n[6..];
      assert Lower(n)[..6] == Lower(n[..6]) && Lower(n)[6..] == Lower(n[6..]);
    }
  }

  /** The eighteen directives. */
  lemma KnownAre(key: string)
    ensures key in KNOWN <==>
              key in ["browser", "os", "ja", "http2settings", "http3settings", "forcehttp", "proxy", "timeout",
                      "dns"] ||
              key in ["dnsovertls", "interfaceaddr", "securetls", "disablekeepalive", "h2c", "scheme", "keep",
                      "match"] ||
              key == "profile"
  {
  }

  lemma KnownStarts(key: string)
    requires key in KNOWN
    ensures key != "" && key[0] != 'x' && forall c :: c in key ==> !IsSpace(c)
  {
    KnownAre(key);
  }

  lemma SpaceStaysLower(c: char)
    ensures (IsSpace(c) ==> IsSpace(LowerChar(c))) && !IsSpace('x')
  {
  }

  lemma PrefixStarts(n: string)
    requires HasPrefix(n)
    ensures Lower(n) != "" && Lower(n)[0] == 'x'
  {
    PrefixAndKey(n);
  }

  lemma EndsOf(lower: string, key: string)
    requires key != "" && (lower == key || lower == "x-tip-" + key)
    ensures lower != "" && lower[|lower| - 1] == key[|key| - 1] && (lower[0] == 'x' || lower[0] == key[0])
  {
  }

  lemma NoSpaceInLower(name: string, key: string)
    requires key != "" && !IsSpace(key[0]) && !IsSpace(key[|key| - 1])
    requires Lower(name) == key || Lower(name) == "x-tip-" + key
    ensures name != "" && !IsSpace(name[0]) && !IsSpace(name[|name| - 1])
  {
    EndsOf(Lower(name), key);
    hide IsSpace;
    hide LowerChar;
    SpaceStaysLower(name[0]);
    SpaceStaysLower(name[|name| - 1]);
  }

  lemma KnownEnds(key: string)
    requires key in KNOWN
    ensures key != "" && !IsSpace(key[0]) && !IsSpace(key[|key| - 1])
  {
    KnownStarts(key);
    hide IsSpace;
    assert key[0] in key && key[|key| - 1] in key;
  }

  lemma NameOrHeader(name: string, key: string)
    requires key in KNOWN
    ensures Lower(name) == key ==> !HasPrefix(name)
    ensures Lower(name) == "x-tip-" + key ==> HasPrefix(name) && KeyOf(name) == key
  {
    KnownStarts(key);
    NameIsFor(name, key);
    if HasPrefix(name) {
      PrefixStarts(name);
    }
  }

  /** A configured name denies a directive in any case, with or without the prefix, and with any white space around. */
  lemma DenyReads(front: string, name: string, back: string, key: string)
    requires key in KNOWN && (Lower(name) == key || Lower(name) == "x-tip-" + key)
    requires forall c :: c in front + back ==> IsSpace(c)
    ensures DenyKey(front + name + back) == key
  {
    KnownEnds(key);
    NoSpaceInLower(name, key);
    SpaceIsTrimmed(front, name, back);
    LowerTwice(name);
    NameOrHeader(Lower(name), key);
    hide TrimSpace;
    hide Lower;
    assert ("x-tip-" + key)[6..] == key;
  }

  lemma PrefixIsLower()
    ensures Lower("x-tip-") == "x-tip-"
  {
  }

  /** And so it gives one a default. */
  lemma DefaultReads(front: string, name: string, back: string, key: string)
    requires key in KNOWN && (Lower(name) == key || Lower(name) == "x-tip-" + key)
    requires forall c :: c in front + back ==> IsSpace(c)
    ensures DefaultName(front + name + back) == "x-tip-" + key
  {
    KnownEnds(key);
    NoSpaceInLower(name, key);
    SpaceIsTrimmed(front, name, back);
    NameOrHeader(name, key);
    LowerJoins("x-tip-", name);
    PrefixIsLower();
    hide TrimSpace;
    hide HasPrefix;
    hide KNOWN;
    hide Lower;
  }

  /** A proxy pattern is read in any case and with any white space around. */
  lemma PatternIsTrimmed(front: string, core: string, back: string)
    requires core != "" && !IsSpace(core[0]) && !IsSpace(core[|core| - 1])
    requires forall c :: c in front + back ==> IsSpace(c)
    ensures PatternText(front + core + back) == Lower(core)
  {
    SpaceIsTrimmed(front, core, back);
  }

  // Items of lists

  lemma AsciiSpacesAre(c: char)
    ensures IsAsciiSpace(c) <==> c in " \t\n\r"
  {
  }

  lemma {:induction false} TrimsAsciiFront(front: string, s: string)
    requires forall c :: c in front ==> IsAsciiSpace(c)
    ensures Trim(front + s) == Trim(s)
    decreases |front|
  {
    if front == "" {
      assert front + s == s;
    } else {
      HeadAndTail(front, s);
      TrimsAsciiFront(front[1..], s);
    }
  }

  lemma {:induction false} TrimsAsciiBack(core: string, back: string)
    requires core != "" && !IsAsciiSpace(core[0]) && !IsAsciiSpace(core[|core| - 1])
    requires forall c :: c in back ==> IsAsciiSpace(c)
    ensures Trim(core + back) == core
    decreases |back|
  {
    var s := core + back;
    if back == "" {
      assert s == core;
    } else {
      assert s[0] == core[0] && s[|s| - 1] == back[|back| - 1] && s[..|s| - 1] == core + back[..|back| - 1];
      TrimsAsciiBack(core, back[..|back| - 1]);
    }
  }

  lemma AsciiIsTrimmed(front: string, core: string, back: string)
    requires core != "" && !IsAsciiSpace(core[0]) && !IsAsciiSpace(core[|core| - 1])
    requires forall c :: c in front + back ==> IsAsciiSpace(c)
    ensures Trim(front + core + back) == core
  {
    Joins(front, core, back);
    assert forall c :: c in front || c in back ==> c in front + back;
    TrimsAsciiFront(front, core + back);
    TrimsAsciiBack(core, back);
  }

  /** A line without a comma is one item, trimmed and in lower case. */
  lemma ItemIsRead(rules: Rules, key: string, raw: string)
    requires (key == "browser" || key == "os" || key == "keep") && ',' !in raw && !IsBlank(raw)
    ensures Shape(rules, key, [raw]) == Some(List([Lower(Trim(raw))]))
  {
    ListsAreRead(rules, key, [raw]);
    SplitPiece(raw, ',', "");
    hide Shape;
    hide Trim;
    hide Lower;
    hide IsBlank;
    assert Pieces([raw]) == Tokens([raw]) + Pieces([]) && [raw][1..] == [];
    assert Tokens([raw]) == [Lower(Trim(raw))] + Tokens([]) == [Lower(Trim(raw))];
    assert Pieces([raw]) == Tokens([raw]);
  }

  /** Spaces, tabs and line breaks around an item are trimmed. */
  lemma ItemIsTrimmed(front: string, core: string, back: string)
    requires core != "" && core[0] !in " \t\n\r" && core[|core| - 1] !in " \t\n\r"
    requires forall c :: c in front + back ==> c in " \t\n\r"
    ensures Trim(front + core + back) == core
  {
    AllAscii(front + back);
    AsciiSpacesAre(core[0]);
    AsciiSpacesAre(core[|core| - 1]);
    hide IsAsciiSpace;
    hide Trim;
    AsciiIsTrimmed(front, core, back);
  }

  lemma AllAscii(s: string)
    requires forall c :: c in s ==> c in " \t\n\r"
    ensures forall c :: c in s ==> IsAsciiSpace(c)
  {
  }

  // Scalars and pairs

  /** The thirteen directives of one value take it as it was sent, once and not blank. */
  lemma ScalarIsRead(rules: Rules, key: string, values: seq<string>)
    requires values != []
    requires key in ["ja", "forcehttp", "proxy", "timeout", "dns", "dnsovertls", "interfaceaddr"] ||
             key in ["securetls", "disablekeepalive", "h2c", "scheme", "match", "profile"]
    ensures Shape(rules, key, values) ==
              if |values| == 1 && exists c :: c in values[0] && !IsSpace(c) then Some(Scalar(values[0])) else None
  {
  }

  /** The names that the pairs of a key may have. */
  predicate IsSetting(key: string, name: string) {
    if key == "http2settings" then
      name in ["headertablesize", "enablepush", "maxconcurrentstreams", "initialwindowsize", "maxframesize"] ||
      name in ["maxheaderlistsize", "norfc7540priorities", "connectionflow", "initialstreamid"]
    else
      name in ["qpackmaxtablecapacity", "maxfieldsectionsize", "qpackblockedstreams", "enableconnectprotocol"] ||
      name in ["settingsh3datagram", "h3datagram", "enablewebtransport", "grease"]
  }

  lemma AllowedAre(key: string, name: string)
    requires key == "http2settings" || key == "http3settings"
    ensures name in Allowed(key) <==> IsSetting(key, name)
  {
  }

  /** The two directives of pairs take header lines joined by semicolons, that read as cookies with names of theirs, in
      any case and none twice. */
  lemma PairsAreTaken(rules: Rules, key: string, values: seq<string>)
    requires values != [] && (key == "http2settings" || key == "http3settings")
    ensures var read := rules.cookies(Join(values, ';'));
            Shape(rules, key, values).Some? <==>
              read.Some? && (forall i :: 0 <= i < |read.value| ==> IsSetting(key, Lower(read.value[i].0))) &&
              forall i, j :: 0 <= i < j < |read.value| ==> Lower(read.value[i].0) != Lower(read.value[j].0)
    ensures Shape(rules, key, values) == ShapePairs(rules, key, Join(values, ';'))
  {
    PairsAreRead(rules, key, Join(values, ';'));
    forall n ensures n in Allowed(key) <==> IsSetting(key, n) {
      AllowedAre(key, n);
    }
    hide Allowed;
    hide IsSetting;
    hide ShapePairs;
    hide Lower;
  }

  // What is accepted

  /** A header that gives a directive gives a known one, that is not denied, in its shape and with a valid value. */
  ghost predicate IsGood(rules: Rules, h: Header, deny: set<string>, n: string)
    requires Canonical(h) && n in h
  {
    forall key :: Lower(n) == "x-tip-" + key ==>
      key in KNOWN && key !in deny && exists v :: Shape(rules, key, h[n]) == Some(v) && rules.valid(key, v)
  }

  lemma GoodFits(rules: Rules, h: Header, deny: set<string>, n: string)
    requires Canonical(h) && n in h
    ensures IsGood(rules, h, deny, n) <==>
              (HasPrefix(n) ==> Fits(rules, h, deny, n) && rules.valid(KeyOf(n), Shape(rules, KeyOf(n), h[n]).value))
  {
    hide Shape;
    forall key ensures IsFor(n, key) <==> Lower(n) == "x-tip-" + key {
      NameIsFor(n, key);
    }
    if HasPrefix(n) {
      PrefixAndKey(n);
    }
  }

  /** The valid values of a request, header by header. */
  lemma ValidByHeader(rules: Rules, h: Header, deny: set<string>)
    requires Canonical(h) && AllFit(rules, h, deny)
    ensures (forall k :: k in Requested(rules, h, deny) ==> rules.valid(k, Requested(rules, h, deny)[k])) <==>
              forall n :: n in h && HasPrefix(n) ==> rules.valid(KeyOf(n), Shape(rules, KeyOf(n), h[n]).value)
  {
    hide Shape;
    var req := Requested(rules, h, deny);
    forall n | n in h && HasPrefix(n) ensures KeyOf(n) in req && req[KeyOf(n)] == Shape(rules, KeyOf(n), h[n]).value {
      assert Fits(rules, h, deny, n) && IsFor(n, KeyOf(n));
      assert ReadFor(rules, h, deny, KeyOf(n), Shape(rules, KeyOf(n), h[n]).value);
      ReadIsRequested(rules, h, deny, KeyOf(n), Shape(rules, KeyOf(n), h[n]).value);
    }
    forall k | k in req ensures exists n :: n in h && HasPrefix(n) && KeyOf(n) == k {
      assert IsFor(NameOf(h, k), k);
    }
  }

  lemma AllGood(rules: Rules, h: Header, deny: set<string>)
    requires Canonical(h)
    ensures (forall n :: n in h ==> IsGood(rules, h, deny, n)) <==>
              AllFit(rules, h, deny) &&
              forall n :: n in h && HasPrefix(n) ==> rules.valid(KeyOf(n), Shape(rules, KeyOf(n), h[n]).value)
  {
    forall n | n in h
      ensures IsGood(rules, h, deny, n) <==>
                (HasPrefix(n) ==> Fits(rules, h, deny, n) && rules.valid(KeyOf(n), Shape(rules, KeyOf(n), h[n]).value))
    {
      GoodFits(rules, h, deny, n);
    }
    hide Shape;
    hide IsGood;
  }

  lemma FieldsAreValid(rules: Rules, h: Header, p: Policy)
    requires Canonical(h) && Consistent(rules, p) && AllFit(rules, h, p.deny)
    ensures Valid(rules, Fields(rules, h, p)) <==>
              !NamesBoth(rules, h) &&
              forall n :: n in h && HasPrefix(n) ==> rules.valid(KeyOf(n), Shape(rules, KeyOf(n), h[n]).value)
  {
    ClashIsOwn(rules, h, p);
    ValidByHeader(rules, h, p.deny);
    MergedIsValid(rules, Requested(rules, h, p.deny), p.defaults);
    hide Shape;
    hide NamesBoth;
    hide Exclusive;
    hide Requested;
    hide Merged;
  }

  /** Under a policy that NewPolicy can make, a header is accepted exactly if each of its directives is known,
      permitted, well shaped and valid, it does not itself name two identities, and the demands on the proxy are met in
      the end. */
  lemma AcceptedExactly(rules: Rules, h: Header, p: Policy)
    requires Canonical(h) && Consistent(rules, p)
    ensures Accepts(rules, h, p) <==>
              (forall n :: n in h ==> IsGood(rules, h, p.deny, n)) && !NamesBoth(rules, h) &&
              var f := Fields(rules, h, p);
              if "proxy" in f then Permits(rules, p.proxyHosts, f["proxy"]) else !p.requireProxy
  {
    AllGood(rules, h, p.deny);
    if AllFit(rules, h, p.deny) {
      FieldsAreValid(rules, h, p);
    }
    hide IsGood;
    hide NamesBoth;
    hide Permits;
    hide AllFit;
    hide Fields;
    hide Valid;
    hide Shape;
  }

  lemma MergedIsValid(rules: Rules, req: map<string, Shaped>, defaults: map<string, Shaped>)
    requires Valid(rules, defaults)
    ensures var all := Merged(req, defaults);
            (forall k :: k in all ==> rules.valid(k, all[k])) <==> forall k :: k in req ==> rules.valid(k, req[k])
  {
    var all := Merged(req, defaults);
    assert forall k :: k in req ==> k in all && all[k] == req[k];
  }
}
