/** The patterns of proxy hosts: a host, a host with a port, or a wildcard for the hosts below one. */
module HostPatterns {
  import opened Options
  import opened Texts

  /** The host of a URL, in lower case, and its port. */
  datatype Site = Site(name: string, port: string)

  /** Where the character first is, or the length of the text. */
  function Index(s: string, c: char): (i: nat)
    ensures i <= |s| && c !in s[..i] && (i < |s| ==> s[i] == c)
  {
    if s == "" || s[0] == c then 0
    else
      var i := Index(s[1..], c);
      assert s[..i + 1] == [s[0]] + s[1..][..i];
      i + 1
  }

  /** Where it last is, or the length of the text. */
  function LastIndex(s: string, c: char): (i: nat)
    ensures i <= |s| && (i < |s| ==> s[i] == c && c !in s[i + 1..]) && (i == |s| <==> c !in s)
  {
    if s == "" then 0
    else
      var i := LastIndex(s[1..], c);
      if i < |s| - 1 || s[0] != c then i + 1 else 0
  }

  /** `net.SplitHostPort`: a host without colons or one in brackets, and the port after the last colon. */
  function SplitHostPort(s: string): Option<Site> {
    var i := LastIndex(s, ':');
    if i == |s| then None
    else if s[0] == '[' then
      var end := Index(s, ']');
      if end + 1 != i || '[' in s[1..] || ']' in s[end + 1..] then None else Some(Site(s[1..end], s[i + 1..]))
    else if ':' in s[..i] || '[' in s || ']' in s then None
    else Some(Site(s[..i], s[i + 1..]))
  }

  predicate IsBracket(c: char) { c == '[' || c == ']' }

  /** `strings.Trim` of brackets. */
  function TrimBrackets(s: string): string
    decreases |s|
  {
    if s != "" && IsBracket(s[0]) then TrimBrackets(s[1..])
    else if s != "" && IsBracket(s[|s| - 1]) then TrimBrackets(s[..|s| - 1])
    else s
  }

  function SplitPattern(pattern: string): Site {
    var split := SplitHostPort(pattern);
    if split.Some? then split.value else Site(TrimBrackets(pattern), "")
  }

  predicate EndsWith(s: string, suffix: string) { |s| >= |suffix| && s[|s| - |suffix|..] == suffix }

  predicate Matches(pattern: string, site: Site) {
    var p := SplitPattern(pattern);
    (p.port == "" || p.port == site.port) &&
    (p.name == site.name || ("*." <= p.name && EndsWith(site.name, p.name[1..])))
  }

  /** A host name or a port: nothing in it that separates them. */
  predicate IsPlain(s: string) { forall c :: c in s ==> c != ':' && !IsBracket(c) }

  /** The address in brackets: colons, but no brackets, within. */
  predicate IsAddress(s: string) { forall c :: c in s ==> !IsBracket(c) }

  lemma LastColon(a: string, b: string)
    requires ':' !in b
    ensures LastIndex(a + ":" + b, ':') == |a|
  {
    var s := a + ":" + b;
    assert s[|a|] == ':' && s[|a| + 1..] == b;
  }

  lemma FirstBracket(a: string, b: string)
    requires ']' !in a
    ensures Index(a + "]" + b, ']') == |a|
  {
    assert (a + "]" + b)[|a|] == ']';
  }

  /** A host, a host with a port, an address in brackets and one with a port are read as what they are written from. */
  lemma PatternReads(host: string, address: string, port: string)
    requires IsPlain(host) && IsAddress(address) && IsPlain(port)
    ensures SplitPattern(host) == Site(host, "") && SplitPattern(host + ":" + port) == Site(host, port)
    ensures SplitPattern("[" + address + "]") == Site(address, "")
    ensures SplitPattern("[" + address + "]:" + port) == Site(address, port)
  {
    HostReads(host, port);
    AddressReads(address, port);
    BareAddressReads(address);
  }

  lemma HostPieces(host: string, port: string)
    ensures var s, n := host + ":" + port, |host|; s[..n] == host && s[n + 1..] == port && s[0] in s
  {
  }

  lemma PlainIsUntrimmed(host: string)
    requires IsPlain(host)
    ensures TrimBrackets(host) == host
  {
    assert host != "" ==> host[0] in host && host[|host| - 1] in host;
  }

  lemma HostReads(host: string, port: string)
    requires IsPlain(host) && IsPlain(port)
    ensures SplitPattern(host) == Site(host, "") && SplitPattern(host + ":" + port) == Site(host, port)
    ensures SplitHostPort(host + ":" + port) == Some(Site(host, port))
  {
    var s, n := host + ":" + port, |host|;
    HostPieces(host, port);
    LastColon(host, port);
    Lacks(host, ":", '[');
    Lacks(host, ":", ']');
    Lacks(host + ":", port, '[');
    Lacks(host + ":", port, ']');
    assert LastIndex(host, ':') == |host|;
    hide LastIndex;
    hide Index;
    PlainIsUntrimmed(host);
    hide TrimBrackets;
  }

  lemma AddressPieces(address: string, port: string)
    ensures var s, n := "[" + address + "]:" + port, |address|;
            s == ("[" + address + "]") + ":" + port && s == ("[" + address) + "]" + (":" + port) &&
            s[1..] == address + ("]:" + port) && s[1..n + 1] == address && s[n + 2..] == ":" + port &&
            s[n + 3..] == port
  {
  }

  lemma Lacks(a: string, b: string, c: char)
    requires c !in a && c !in b
    ensures c !in a + b
  {
  }

  lemma AddressReads(address: string, port: string)
    requires IsAddress(address) && IsPlain(port)
    ensures SplitHostPort("[" + address + "]:" + port) == Some(Site(address, port))
  {
    var s, n := "[" + address + "]:" + port, |address|;
    AddressPieces(address, port);
    LastColon("[" + address + "]", port);
    FirstBracket("[" + address, ":" + port);
    hide LastIndex;
    hide Index;
    Lacks(address, "]:" + port, '[');
    Lacks(":", port, ']');
  }

  lemma BareAddressReads(address: string)
    requires IsAddress(address)
    ensures SplitPattern("[" + address + "]") == Site(address, "")
  {
    var s := "[" + address + "]";
    FirstBracket("[" + address, "");
    assert s == "[" + address + "]" + "";
    assert LastIndex(s, ':') != |s| ==> s[LastIndex(s, ':')] == ':';
    assert s[1..] == address + "]" && (address + "]")[..|address|] == address;
    BareTrims(address);
  }

  lemma BareTrims(address: string)
    requires IsAddress(address)
    ensures TrimBrackets("[" + address + "]") == address
  {
    var s := "[" + address + "]";
    assert TrimBrackets(s) == TrimBrackets(address + "]") by {
      assert s[1..] == address + "]";
    }
    EndTrims(address);
  }

  lemma EndTrims(address: string)
    requires IsAddress(address)
    ensures TrimBrackets(address + "]") == address
  {
    var s := address + "]";
    if address == "" {
      assert s == "]" && s[1..] == "";
    } else {
      assert s[0] == address[0] && s[|s| - 1] == ']' && s[..|s| - 1] == address;
      assert address[0] in address && address[|address| - 1] in address;
      assert TrimBrackets(address) == address;
    }
  }

  /** A wildcard covers the hosts that end in a dot and its suffix, and its own text. */
  lemma WildcardCovers(suffix: string, site: Site)
    requires IsPlain(suffix)
    ensures Matches("*." + suffix, site) <==>
              site.name == "*." + suffix || exists front :: site.name == front + "." + suffix
  {
    HostReads("*." + suffix, "");
    hide SplitPattern;
    assert ("*." + suffix)[1..] == "." + suffix;
    if EndsWith(site.name, "." + suffix) {
      var front := site.name[..|site.name| - |suffix| - 1];
      assert site.name == front + ("." + suffix);
      Joins(front, ".", suffix);
    }
    if front :| site.name == front + "." + suffix {
      Joins(front, ".", suffix);
      assert site.name[|front|..] == "." + suffix;
    }
  }

  /** A host alone covers that name at every port; with a port, at that one. */
  lemma HostCovers(host: string, port: string, site: Site)
    requires (forall c :: c in host ==> c != ':' && c != '[' && c != ']') && !("*." <= host)
    requires (forall c :: c in port ==> c != ':' && c != '[' && c != ']') && port != ""
    ensures Matches(host, site) <==> site.name == host
    ensures Matches(host + ":" + port, site) <==> site == Site(host, port)
  {
    HostReads(host, port);
    hide SplitPattern;
  }

  /** So does an address in brackets. */
  lemma AddressCovers(address: string, port: string, site: Site)
    requires (forall c :: c in address ==> c != '[' && c != ']') && !("*." <= address)
    requires (forall c :: c in port ==> c != ':' && c != '[' && c != ']') && port != ""
    ensures Matches("[" + address + "]", site) <==> site.name == address
    ensures Matches("[" + address + "]:" + port, site) <==> site == Site(address, port)
  {
    PatternReads("", address, port);
    hide SplitPattern;
  }

  lemma WildcardReads(suffix: string, port: string)
    requires IsPlain(suffix) && IsPlain(port)
    ensures SplitPattern("*." + suffix) == Site("*." + suffix, "")
    ensures SplitPattern("*." + suffix + ":" + port) == Site("*." + suffix, port)
  {
    assert forall c :: c in "*." + suffix ==> c in suffix || c == '*' || c == '.';
    HostReads("*." + suffix, port);
  }

  /** A wildcard with a port covers what it covers without, at that port. */
  lemma WildcardPortCovers(suffix: string, port: string, site: Site)
    requires forall c :: c in suffix ==> c != ':' && c != '[' && c != ']'
    requires (forall c :: c in port ==> c != ':' && c != '[' && c != ']') && port != ""
    ensures Matches("*." + suffix + ":" + port, site) <==>
              site.port == port && (site.name == "*." + suffix || exists front :: site.name == front + "." + suffix)
  {
    WildcardCovers(suffix, site);
    WildcardReads(suffix, port);
    hide SplitPattern;
  }

  /** What is split into a host and a port: a text of two plain parts around a colon, or an address in brackets, a colon
      and a plain part. */
  ghost predicate IsSplit(s: string, host: string, port: string) {
    (IsPlain(host) && IsPlain(port) && s == host + ":" + port) ||
    (IsAddress(host) && IsPlain(port) && s == "[" + host + "]:" + port)
  }

  /** That, and nothing else, is split; any other text is a host, less the brackets at its ends, at any port. */
  lemma SplitsExactly(s: string, host: string, port: string)
    ensures SplitHostPort(s) == Some(Site(host, port)) <==> IsSplit(s, host, port)
    ensures (forall h, p :: !IsSplit(s, h, p)) ==> SplitPattern(s) == Site(TrimBrackets(s), "")
  {
    SplitsBack(s);
    if IsPlain(host) && IsPlain(port) && s == host + ":" + port {
      HostReads(host, port);
    }
    if IsAddress(host) && IsPlain(port) && s == "[" + host + "]:" + port {
      AddressReads(host, port);
    }
    hide SplitHostPort;
    hide IsSplit;
  }

  lemma SplitsBack(s: string)
    ensures SplitHostPort(s).Some? ==> IsSplit(s, SplitHostPort(s).value.name, SplitHostPort(s).value.port)
  {
    if SplitHostPort(s).Some? {
      var i := LastIndex(s, ':');
      if s[0] == '[' {
        BracketsBack(s, Index(s, ']'), i);
      } else {
        PlainBack(s, i);
      }
      hide LastIndex;
      hide Index;
    }
  }

  lemma PlainBack(s: string, i: nat)
    requires i < |s| && s[i] == ':' && ':' !in s[..i] && ':' !in s[i + 1..] && '[' !in s && ']' !in s
    ensures IsSplit(s, s[..i], s[i + 1..])
  {
    assert s == s[..i] + ":" + s[i + 1..];
    assert forall c :: c in s[..i] || c in s[i + 1..] ==> c in s;
  }

  lemma BracketsBack(s: string, end: nat, i: nat)
    requires i < |s| && end + 1 == i && s[0] == '[' && s[end] == ']' && s[i] == ':' && ']' !in s[..end]
    requires '[' !in s[1..] && ']' !in s[end + 1..] && ':' !in s[i + 1..]
    ensures end >= 1 && IsSplit(s, s[1..end], s[i + 1..])
  {
    assert s == "[" + s[1..end] + "]:" + s[i + 1..];
    assert forall c :: c in s[1..end] ==> c in s[1..] && c in s[..end];
    assert forall c :: c in s[i + 1..] ==> c in s[1..] && c in s[end + 1..];
  }
}
