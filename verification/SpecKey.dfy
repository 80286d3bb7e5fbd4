/** The resolved identity of a request, and the text that identifies it in the cache. */
module SpecKey {
  import opened Options
  import opened Json

  datatype Http2 = Http2(
    headerTableSize: Option<nat>, enablePush: Option<nat>, maxConcurrentStreams: Option<nat>,
    initialWindowSize: Option<nat>,
    maxFrameSize: Option<nat>, maxHeaderListSize: Option<nat>, noRfc7540Priorities: Option<nat>,
    connectionFlow: Option<nat>,
    initialStreamId: Option<nat>)

  datatype Http3 = Http3(
    qpackMaxTableCapacity: Option<nat>, maxFieldSectionSize: Option<nat>, qpackBlockedStreams: Option<nat>,
    enableConnectProtocol: Option<nat>, settingsH3Datagram: Option<nat>, h3Datagram: Option<nat>,
    enableWebtransport: Option<nat>,
    grease: bool, order: seq<string>)

  /** A nil pointer is None; a nil and an empty order are both []. */
  datatype Spec = Spec(
    browser: string, os: string, ja: string, http2: Option<Http2>, http3: Option<Http3>, forceHttp: string,
    proxy: string,
    dns: string, dnsOverTls: string, interfaceAddr: string, secureTls: bool, disableKeepAlive: bool, h2c: bool)

  /** A record field under its JSON name; None when `omitempty` leaves it out. */
  datatype Slot = Slot(name: string, value: Option<Value>)

  function OfText(name: string, s: string): Slot { Slot(name, if s == "" then None else Some(Text(s))) }

  function OfBool(name: string, b: bool): Slot { Slot(name, if b then Some(Yes) else None) }

  function OfNat(name: string, n: Option<nat>): Slot { Slot(name, if n.None? then None else Some(Number(n.value))) }

  function OfOrder(name: string, order: seq<string>): Slot {
    Slot(name, if order == [] then None else Some(Array(ToItems(order))))
  }

  function ToItems(texts: seq<string>): Items {
    if texts == [] then NoItems else Item(Text(texts[0]), ToItems(texts[1..]))
  }

  function ToFields(slots: seq<Slot>): Fields {
    if slots == [] then NoFields
    else if slots[0].value.None? then ToFields(slots[1..])
    else Field(slots[0].name, slots[0].value.value, ToFields(slots[1..]))
  }

  function Http2Slots(h: Http2): seq<Slot> {
    [OfNat("headertablesize", h.headerTableSize), OfNat("enablepush", h.enablePush),
     OfNat("maxconcurrentstreams", h.maxConcurrentStreams), OfNat("initialwindowsize", h.initialWindowSize),
     OfNat("maxframesize", h.maxFrameSize), OfNat("maxheaderlistsize", h.maxHeaderListSize),
     OfNat("norfc7540priorities", h.noRfc7540Priorities), OfNat("connectionflow", h.connectionFlow),
     OfNat("initialstreamid", h.initialStreamId)]
  }

  function Http3Slots(h: Http3): seq<Slot> {
    [OfNat("qpackmaxtablecapacity", h.qpackMaxTableCapacity), OfNat("maxfieldsectionsize", h.maxFieldSectionSize),
     OfNat("qpackblockedstreams", h.qpackBlockedStreams), OfNat("enableconnectprotocol", h.enableConnectProtocol),
     OfNat("settingsh3datagram", h.settingsH3Datagram), OfNat("h3datagram", h.h3Datagram),
     OfNat("enablewebtransport", h.enableWebtransport), OfBool("grease", h.grease), OfOrder("order", h.order)]
  }

  function SpecSlots(s: Spec): seq<Slot> {
    [OfText("browser", s.browser), OfText("os", s.os), OfText("ja", s.ja),
     Slot("http2settings", if s.http2.None? then None else Some(Object(ToFields(Http2Slots(s.http2.value))))),
     Slot("http3settings", if s.http3.None? then None else Some(Object(ToFields(Http3Slots(s.http3.value))))),
     OfText("forcehttp", s.forceHttp), OfText("proxy", s.proxy), OfText("dns", s.dns),
     OfText("dnsovertls", s.dnsOverTls),
     OfText("interfaceaddr", s.interfaceAddr), OfBool("securetls", s.secureTls),
     OfBool("disablekeepalive", s.disableKeepAlive),
     OfBool("h2c", s.h2c)]
  }

  function Key(s: Spec): string { Print(Object(ToFields(SpecSlots(s)))) }

  // The decoder

  function Lookup(fields: Fields, name: string): Option<Value> {
    if fields.NoFields? then None
    else if fields.name == name then Some(fields.value)
    else Lookup(fields.rest, name)
  }

  function TextOf(v: Option<Value>): string { if v.Some? && v.value.Text? then v.value.text else "" }

  function NatOf(v: Option<Value>): Option<nat> { if v.Some? && v.value.Number? then Some(v.value.number) else None }

  function TextsOf(items: Items): seq<string> {
    if items.NoItems? then [] else [TextOf(Some(items.head))] + TextsOf(items.tail)
  }

  function OrderOf(v: Option<Value>): seq<string> { if v.Some? && v.value.Array? then TextsOf(v.value.items) else [] }

  function FieldsOf(v: Option<Value>): Option<Fields> {
    if v.Some? && v.value.Object? then Some(v.value.fields) else None
  }

  function ToHttp2(f: Fields): Http2 {
    Http2(NatOf(Lookup(f, "headertablesize")), NatOf(Lookup(f, "enablepush")), NatOf(Lookup(f, "maxconcurrentstreams")),
          NatOf(Lookup(f, "initialwindowsize")), NatOf(Lookup(f, "maxframesize")),
          NatOf(Lookup(f, "maxheaderlistsize")),
          NatOf(Lookup(f, "norfc7540priorities")), NatOf(Lookup(f, "connectionflow")),
          NatOf(Lookup(f, "initialstreamid")))
  }

  function ToHttp3(f: Fields): Http3 {
    Http3(NatOf(Lookup(f, "qpackmaxtablecapacity")), NatOf(Lookup(f, "maxfieldsectionsize")),
          NatOf(Lookup(f, "qpackblockedstreams")), NatOf(Lookup(f, "enableconnectprotocol")),
          NatOf(Lookup(f, "settingsh3datagram")), NatOf(Lookup(f, "h3datagram")),
          NatOf(Lookup(f, "enablewebtransport")),
          Lookup(f, "grease") == Some(Yes), OrderOf(Lookup(f, "order")))
  }

  function ToSpec(f: Fields): Spec {
    var h2, h3 := FieldsOf(Lookup(f, "http2settings")), FieldsOf(Lookup(f, "http3settings"));
    Spec(TextOf(Lookup(f, "browser")), TextOf(Lookup(f, "os")), TextOf(Lookup(f, "ja")),
         if h2.None? then None else Some(ToHttp2(h2.value)), if h3.None? then None else Some(ToHttp3(h3.value)),
         TextOf(Lookup(f, "forcehttp")), TextOf(Lookup(f, "proxy")), TextOf(Lookup(f, "dns")),
         TextOf(Lookup(f, "dnsovertls")),
         TextOf(Lookup(f, "interfaceaddr")), Lookup(f, "securetls") == Some(Yes),
         Lookup(f, "disablekeepalive") == Some(Yes),
         Lookup(f, "h2c") == Some(Yes))
  }

  function Decode(key: string): Option<Spec> {
    var r := Parse(key);
    if r.Some? && r.value.value.Object? && r.value.rest == "" then Some(ToSpec(r.value.value.fields)) else None
  }

  // The decoder inverts the encoder

  ghost predicate Named(slots: seq<Slot>) {
    forall i, j :: 0 <= i < j < |slots| ==> slots[i].name != slots[j].name
  }

  lemma {:induction false} LookupAbsent(slots: seq<Slot>, name: string)
    requires forall i :: 0 <= i < |slots| ==> slots[i].name != name
    ensures Lookup(ToFields(slots), name) == None
  {
    if slots != [] {
      LookupAbsent(slots[1..], name);
    }
  }

  lemma {:induction false} LookupSlot(slots: seq<Slot>, i: nat)
    requires Named(slots) && i < |slots|
    ensures Lookup(ToFields(slots), slots[i].name) == slots[i].value
  {
    if i > 0 {
      LookupSlot(slots[1..], i - 1);
    } else {
      LookupAbsent(slots[1..], slots[0].name);
    }
  }

  ghost predicate Finds(f: Fields, slots: seq<Slot>) {
    forall i :: 0 <= i < |slots| ==> Lookup(f, slots[i].name) == slots[i].value
  }

  lemma LookupAll(slots: seq<Slot>)
    requires Named(slots)
    ensures Finds(ToFields(slots), slots)
  {
    forall i | 0 <= i < |slots| ensures Lookup(ToFields(slots), slots[i].name) == slots[i].value {
      LookupSlot(slots, i);
    }
  }

  lemma {:induction false} OrderReads(texts: seq<string>)
    ensures TextsOf(ToItems(texts)) == texts
  {
    if texts != [] {
      OrderReads(texts[1..]);
      assert texts == [texts[0]] + texts[1..];
    }
  }

  lemma Http2Named(h: Http2)
    ensures Named(Http2Slots(h))
  {
  }

  lemma Http2Lookups(h: Http2, f: Fields)
    requires Finds(f, Http2Slots(h))
    ensures ToHttp2(f) == h
  {
    hide Lookup;
    var slots := Http2Slots(h);
    assert slots[0].name == "headertablesize" && slots[1].name == "enablepush" &&
           slots[2].name == "maxconcurrentstreams" && slots[3].name == "initialwindowsize" &&
           slots[4].name == "maxframesize" && slots[5].name == "maxheaderlistsize" &&
           slots[6].name == "norfc7540priorities" && slots[7].name == "connectionflow" &&
           slots[8].name == "initialstreamid";
  }

  lemma Http3Named(h: Http3)
    ensures Named(Http3Slots(h))
  {
  }

  lemma Http3Lookups(h: Http3, f: Fields)
    requires Finds(f, Http3Slots(h))
    ensures ToHttp3(f) == h
  {
    hide Lookup;
    hide ToItems;
    hide TextsOf;
    var slots := Http3Slots(h);
    assert slots[0].name == "qpackmaxtablecapacity" && slots[1].name == "maxfieldsectionsize" &&
           slots[2].name == "qpackblockedstreams" && slots[3].name == "enableconnectprotocol" &&
           slots[4].name == "settingsh3datagram" && slots[5].name == "h3datagram" &&
           slots[6].name == "enablewebtransport" && slots[7].name == "grease" && slots[8].name == "order";
    OrderReads(h.order);
  }

  lemma Http2Reads(h: Http2)
    ensures ToHttp2(ToFields(Http2Slots(h))) == h
  {
    Http2Named(h);
    LookupAll(Http2Slots(h));
    Http2Lookups(h, ToFields(Http2Slots(h)));
  }

  lemma Http3Reads(h: Http3)
    ensures ToHttp3(ToFields(Http3Slots(h))) == h
  {
    Http3Named(h);
    LookupAll(Http3Slots(h));
    Http3Lookups(h, ToFields(Http3Slots(h)));
  }

  lemma SpecNamed(s: Spec)
    ensures Named(SpecSlots(s))
  {
  }

  lemma IdentityLookups(s: Spec, f: Fields)
    requires Finds(f, SpecSlots(s))
    ensures var r := ToSpec(f); r.browser == s.browser && r.os == s.os && r.ja == s.ja && r.forceHttp == s.forceHttp
  {
    hide Lookup;
    hide ToHttp2;
    hide ToHttp3;
    var slots := SpecSlots(s);
    assert slots[0].name == "browser" && slots[1].name == "os" && slots[2].name == "ja" && slots[5].name == "forcehttp";
  }

  lemma RouteLookups(s: Spec, f: Fields)
    requires Finds(f, SpecSlots(s))
    ensures var r := ToSpec(f);
            r.proxy == s.proxy && r.dns == s.dns && r.dnsOverTls == s.dnsOverTls && r.interfaceAddr == s.interfaceAddr
  {
    hide Lookup;
    hide ToHttp2;
    hide ToHttp3;
    var slots := SpecSlots(s);
    assert slots[6].name == "proxy" && slots[7].name == "dns" && slots[8].name == "dnsovertls" &&
           slots[9].name == "interfaceaddr";
  }

  lemma FlagLookups(s: Spec, f: Fields)
    requires Finds(f, SpecSlots(s))
    ensures var r := ToSpec(f); r.secureTls == s.secureTls && r.disableKeepAlive == s.disableKeepAlive && r.h2c == s.h2c
  {
    hide Lookup;
    hide ToHttp2;
    hide ToHttp3;
    var slots := SpecSlots(s);
    assert slots[10].name == "securetls" && slots[11].name == "disablekeepalive" && slots[12].name == "h2c";
  }

  lemma Http2Nested(s: Spec, f: Fields)
    requires Finds(f, SpecSlots(s))
    ensures ToSpec(f).http2 == s.http2
  {
    hide Lookup;
    hide ToHttp2;
    hide Http2Slots;
    hide ToFields;
    assert SpecSlots(s)[3].name == "http2settings";
    if s.http2.Some? {
      Http2Reads(s.http2.value);
    }
  }

  lemma Http3Nested(s: Spec, f: Fields)
    requires Finds(f, SpecSlots(s))
    ensures ToSpec(f).http3 == s.http3
  {
    hide Lookup;
    hide ToHttp3;
    hide Http3Slots;
    hide ToFields;
    assert SpecSlots(s)[4].name == "http3settings";
    if s.http3.Some? {
      Http3Reads(s.http3.value);
    }
  }

  /** The decoder recovers every spec from its key. */
  lemma KeyReads(s: Spec)
    ensures Decode(Key(s)) == Some(s)
  {
    PrintParses(Object(ToFields(SpecSlots(s))), "");
    assert Key(s) + "" == Key(s);
    SpecNamed(s);
    LookupAll(SpecSlots(s));
    IdentityLookups(s, ToFields(SpecSlots(s)));
    RouteLookups(s, ToFields(SpecSlots(s)));
    FlagLookups(s, ToFields(SpecSlots(s)));
    Http2Nested(s, ToFields(SpecSlots(s)));
    Http3Nested(s, ToFields(SpecSlots(s)));
  }

  /** Specs with the same key are equal. */
  lemma KeyInjective(s: Spec, t: Spec)
    requires Key(s) == Key(t)
    ensures s == t
  {
    KeyReads(s);
    KeyReads(t);
  }

  /** The key as any reader of JSON sees it: each field under its name, and no field that is empty. */
  lemma KeyTells(s: Spec) returns (f: Fields)
    ensures Parse(Key(s)).Some? && Parse(Key(s)).value.value == Object(f) && Parse(Key(s)).value.rest == ""
    ensures Lookup(f, "browser") == SaidText(s.browser) && Lookup(f, "os") == SaidText(s.os) &&
            Lookup(f, "ja") == SaidText(s.ja)
    ensures Lookup(f, "forcehttp") == SaidText(s.forceHttp) && Lookup(f, "proxy") == SaidText(s.proxy)
    ensures Lookup(f, "dns") == SaidText(s.dns) && Lookup(f, "dnsovertls") == SaidText(s.dnsOverTls)
    ensures Lookup(f, "interfaceaddr") == SaidText(s.interfaceAddr)
    ensures Lookup(f, "securetls") == SaidFlag(s.secureTls) && Lookup(f, "h2c") == SaidFlag(s.h2c)
    ensures Lookup(f, "disablekeepalive") == SaidFlag(s.disableKeepAlive)
    ensures (Lookup(f, "http2settings").Some? <==> s.http2.Some?) &&
            (Lookup(f, "http3settings").Some? <==> s.http3.Some?)
  {
    var slots := SpecSlots(s);
    f := ToFields(slots);
    PrintParses(Object(f), "");
    assert Key(s) + "" == Key(s);
    SpecNamed(s);
    LookupAll(slots);
    hide Lookup;
    hide ToFields;
    hide Parse;
    assert slots[0].name == "browser" && slots[1].name == "os" && slots[2].name == "ja" && slots[5].name == "forcehttp";
    assert slots[6].name == "proxy" && slots[7].name == "dns" && slots[8].name == "dnsovertls";
    assert slots[9].name == "interfaceaddr" && slots[10].name == "securetls" && slots[11].name == "disablekeepalive";
    assert slots[12].name == "h2c" && slots[3].name == "http2settings" && slots[4].name == "http3settings";
  }

  function SaidText(s: string): Option<Value> { if s == "" then None else Some(Text(s)) }

  function SaidFlag(b: bool): Option<Value> { if b then Some(Yes) else None }
}
