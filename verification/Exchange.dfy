/** One request from its admission to its last byte, as the source writes it: what it counts, whom it holds, and the
    hooks on its bodies. The interleavings of many are in Lifecycle. */
module Exchange {
  import opened Options
  import opened Cache
  import Connect
  import D = Directives
  import Diagnosis
  import I = Identity
  import Lru
  import SpecKey

  type Byte = Connect.Byte

  // Bodies

  /** A body that counts what is read from it. */
  class CountingBody {
    var left: seq<Byte>
    var n: nat
    var closed: bool

    constructor (bytes: seq<Byte>)
      ensures left == bytes && n == 0 && !closed
    {
      left, n, closed := bytes, 0, false;
    }

    method Read(size: nat, arrived: nat) returns (p: seq<Byte>)
      modifies this`left, this`n
      ensures p + left == old(left) && n == old(n) + |p| && |p| <= size
    {
      p := Connect.Take(Connect.Least(size, arrived), left);
      left := left[|p|..];
      n := n + |p|;
    }

    method Close()
      modifies this`closed
      ensures closed
    {
      closed := true;
    }
  }

  /** A request body that can be sent again as long as nothing of it has been. */
  class Replayable {
    const body: CountingBody
    var consumed: bool
    ghost const whole: seq<Byte>

    /** Nothing is lost to a replay that is allowed. */
    ghost predicate Valid()
      reads this, body
    {
      (!consumed ==> body.left == whole) && body.n + |body.left| == |whole|
    }

    constructor (body: CountingBody)
      requires body.n == 0
      ensures Valid() && this.body == body && whole == body.left && !consumed
    {
      this.body, consumed, whole := body, false, body.left;
    }

    method Read(size: nat, arrived: nat) returns (p: seq<Byte>)
      requires Valid()
      modifies this`consumed, body`left, body`n
      ensures Valid() && p + body.left == old(body.left) && consumed == (old(consumed) || p != [])
    {
      p := body.Read(size, arrived);
      if p != [] {
        consumed := true;
      }
    }

    /** The body again, from its start, or nothing. */
    method Replay() returns (again: CountingBody?)
      requires Valid()
      ensures again == if consumed then null else body
      ensures again != null ==> again.left == whole
    {
      again := if consumed then null else body;
    }
  }

  // The server's counts

  /** What the observer is told when a request finishes. */
  datatype Event = Event(status: int, bytesIn: nat, bytesOut: nat)

  /** The requests that are under way, those whose start was observed, and what was observed of those finished. */
  datatype Tally = Tally(active: int, started: nat, finished: seq<Event>)

  function Began(n: Tally): Tally { n.(active := n.active + 1, started := n.started + 1) }

  function Ended(n: Tally, e: Event): Tally { n.(active := n.active - 1, finished := n.finished + [e]) }

  function EndedAll(n: Tally, es: seq<Event>): Tally { n.(active := n.active - |es|, finished := n.finished + es) }

  /** What finished in the first n waits. */
  function Passed(waits: nat -> seq<Event>, n: nat): seq<Event> {
    if n == 0 then [] else Passed(waits, n - 1) + waits(n - 1)
  }

  class Server {
    var active: int
    var draining: bool
    var started: nat
    var finished: seq<Event>

    function Count(): Tally
      reads this`active, this`started, this`finished
    {
      Tally(active, started, finished)
    }

    constructor ()
      ensures Count() == Tally(0, 0, []) && !draining
    {
      active, draining, started, finished := 0, false, 0, [];
    }

    method Start()
      modifies this`active, this`started
      ensures active == old(active) + 1 && started == old(started) + 1
    {
      active := active + 1;
      started := started + 1;
    }

    method Finish(e: Event)
      modifies this`active, this`finished
      ensures active == old(active) - 1 && finished == old(finished) + [e]
    {
      finished := finished + [e];
      active := active - 1;
    }

    /** The requests that finish while Drain waits for its ticker. */
    method Wait(es: seq<Event>)
      modifies this`active, this`finished
      ensures Count() == EndedAll(old(Count()), es)
    {
      for i := 0 to |es|
        invariant Count() == EndedAll(old(Count()), es[..i])
      {
        Finish(es[i]);
      }
      assert es[..|es|] == es;
    }

    /** Nothing is admitted any more; then waits, `deadline` ticks at the longest, until no request is active. Returns
        how many are left, if the context was over first: it gives up at the deadline only, and not a tick late when all
        is done. */
    method Drain(waits: nat -> seq<Event>, deadline: nat) returns (left: Option<int>, ghost ticks: nat)
      modifies this`draining, this`active, this`finished
      ensures draining && ticks <= deadline && Count() == EndedAll(old(Count()), Passed(waits, ticks))
      ensures left == if active > 0 then Some(active) else None
      ensures left.Some? ==> ticks == deadline
      ensures forall k :: 0 <= k < ticks ==> |Passed(waits, k)| < old(active)
    {
      draining := true;
      var i := 0;
      while active > 0
        invariant i <= deadline && Count() == EndedAll(old(Count()), Passed(waits, i)) && draining
        invariant forall k :: 0 <= k < i ==> |Passed(waits, k)| < old(active)
        decreases deadline - i
      {
        if i == deadline {
          return Some(active), i;
        }
        Wait(waits(i));
        i := i + 1;
      }
      return None, i;
    }
  }

  // The round trip

  /** A response's body with its closing hook: the first Close releases the client and finishes the request. */
  class CloseHook {
    const server: Server
    const client: Client
    const body: CountingBody
    const sent: CountingBody
    const status: int
    var done: bool

    constructor (server: Server, client: Client, body: CountingBody, sent: CountingBody, status: int)
      ensures this.server == server && this.client == client && this.body == body && this.sent == sent &&
              this.status == status && !done
    {
      this.server, this.client, this.body, this.sent, this.status, done := server, client, body, sent, status, false;
    }

    method Close()
      requires client.Valid() && (!done ==> client.inflight > 0)
      modifies this`done, body`closed, client`inflight, client`closed, client`closes, server`active, server`finished
      ensures done && body.closed && client.Valid()
      ensures old(done) ==> unchanged(client) && unchanged(server)
      ensures !old(done) ==>
                client.inflight == old(client.inflight) - 1 &&
                server.Count() == Ended(old(server.Count()), Event(status, sent.n, body.n)) &&
                client.closed == (old(client.closed) || (client.retired && client.inflight == 0))
    {
      body.Close();
      if !done {
        done := true;
        client.Release();
        server.Finish(Event(status, sent.n, body.n));
      }
    }
  }

  /** What the upstream does: a failure, and what the request had seen of its connections, or a response. */
  datatype Upstream = Failed(why: Diagnosis.Failure, seen: Diagnosis.Seen) | Response(status: int, body: seq<Byte>)

  /** One round trip. A failure has released the client and finished the request, with the answer's status, when it
      returns; a response leaves both to its body's hook. */
  method RoundTrip(server: Server, client: Client, route: Diagnosis.Route, sent: CountingBody, up: Upstream)
    returns (hook: CloseHook?)
    requires client.Valid() && client.inflight > 0
    modifies client`inflight, client`closed, client`closes, server`active, server`finished
    ensures client.Valid() && (hook == null <==> up.Failed?)
    ensures up.Failed? ==>
              client.inflight == old(client.inflight) - 1 &&
              server.Count() == Ended(old(server.Count()),
                                      Event(Diagnosis.Told(up.why, route, up.seen).code, sent.n, 0)) &&
              client.closed == (old(client.closed) || (client.retired && client.inflight == 0))
    ensures up.Response? ==>
              fresh(hook) && fresh(hook.body) && hook.server == server && hook.client == client && hook.sent == sent &&
              hook.status == up.status && !hook.done && hook.body.n == 0 && hook.body.left == up.body &&
              unchanged(client) && unchanged(server)
  {
    match up
    case Failed(why, seen) =>
      client.Release();
      var answer := Diagnosis.UpstreamFailure(Diagnosis.Diagnose(why, route, seen), why);
      server.Finish(Event(answer.code, sent.n, 0));
      hook := null;
    case Response(status, bytes) =>
      var body := new CountingBody(bytes);
      hook := new CloseHook(server, client, body, sent, status);
  }

  /** What the caller does with a response's body. */
  datatype Use = Read(size: nat, arrived: nat) | Close

  /** However a response's body is read and closed, and however often: if it is closed at all, the client is released
      once and the request finished once, with the bytes read until then; if it is not, neither has happened. */
  method UseBody(hook: CloseHook, uses: seq<Use>) returns (read: nat)
    requires !hook.done && hook.body.n == 0 && hook.client.Valid() && hook.client.inflight > 0 && hook.sent != hook.body
    modifies hook`done, hook.body, hook.client`inflight, hook.client`closed, hook.client`closes,
             hook.server`active, hook.server`finished
    ensures hook.client.Valid() && (hook.done <==> Use.Close in uses)
    ensures !hook.done ==> read == hook.body.n && unchanged(hook.client) && unchanged(hook.server)
    ensures hook.done ==>
              hook.client.inflight == old(hook.client.inflight) - 1 && read <= hook.body.n &&
              hook.client.closed == (old(hook.client.closed) || (hook.client.retired && hook.client.inflight == 0)) &&
              hook.server.Count() == Ended(old(hook.server.Count()), Event(hook.status, hook.sent.n, read))
  {
    read := 0;
    for i := 0 to |uses|
      invariant hook.client.Valid() && (hook.done <==> Use.Close in uses[..i])
      invariant !hook.done ==> read == hook.body.n && unchanged(hook.client) && unchanged(hook.server)
      invariant hook.done ==>
        hook.client.inflight == old(hook.client.inflight) - 1 && read <= hook.body.n &&
        hook.client.closed == (old(hook.client.closed) || (hook.client.retired && hook.client.inflight == 0)) &&
        hook.server.Count() == Ended(old(hook.server.Count()), Event(hook.status, hook.sent.n, read))
    {
      assert uses[..i + 1] == uses[..i] + [uses[i]];
      match uses[i]
      case Read(size, arrived) =>
        var p := hook.body.Read(size, arrived);
        if !hook.done {
          read := read + |p|;
        }
      case Close =>
        hook.Close();
    }
    assert uses[..|uses|] == uses;
  }

  // Admission

  /** What is fixed for a server: the rules and readings of the schema, the policy, the listed profiles, the families'
      own User-Agents, and how the directives beside the identity make a spec. */
  datatype Settings = Settings(
    rules: D.Rules, readings: I.Readings, policy: D.Policy, lookup: I.Catalogue, agent: (string, string) -> string,
    rest: D.Directive -> SpecKey.Spec)

  ghost predicate Sane(s: Settings) { I.Schema(s.rules, s.readings) && I.Sound(s.lookup) }

  /** What a request brings: its headers, its User-Agent, and whether it upgrades to a WebSocket. */
  datatype Request = Request(header: D.Header, agent: string, upgrades: bool)

  datatype Admission = Unavailable | Denied | Admitted(client: Client, spec: SpecKey.Spec)

  const TEAPOT := 418

  /** A WebSocket needs HTTP/1. */
  function Rest(s: Settings, d: D.Directive, upgrades: bool): SpecKey.Spec {
    var rest := s.rest(d);
    if rest.forceHttp == "" && upgrades then rest.(forceHttp := "1") else rest
  }

  ghost function DirectiveOf(s: Settings, r: Request): D.Directive
    requires D.Canonical(r.header)
  {
    D.Directive(D.Fields(s.rules, r.header, s.policy), D.Requested(s.rules, r.header, s.policy.deny).Keys)
  }

  /** The identity the request asks for, once its header is accepted and its profile known. */
  ghost function WishFor(s: Settings, r: Request): (w: Option<I.Wish>)
    requires D.Canonical(r.header)
  {
    if D.Accepts(s.rules, r.header, s.policy) then
      I.Settle(s.lookup, s.agent, r.agent, I.WishOf(s.rules, s.readings, DirectiveOf(s, r)))
    else None
  }

  /** The spec a request is admitted with, under these picks and answers, if it names a legal identity at all. */
  ghost function SpecFor(s: Settings, r: Request, picks: map<string, I.Pair>, a: I.Answers): Option<SpecKey.Spec>
    requires D.Canonical(r.header) && I.Fair(a)
  {
    var wish := WishFor(s, r);
    var resolved := if wish.None? then None else I.ResolveWith(picks, wish.value, a);
    if resolved.None? then None else Some(I.ToSpec(resolved.value, Rest(s, DirectiveOf(s, r), r.upgrades)))
  }

  /** Parsing and settling; either may turn the request away. */
  method ReadWish(s: Settings, r: Request) returns (wish: Option<I.Wish>, d: D.Directive)
    requires Sane(s) && D.Canonical(r.header)
    ensures wish == WishFor(s, r) && (wish.Some? ==> d == DirectiveOf(s, r) && I.Validated(wish.value))
  {
    var parsed := D.Parse(s.rules, r.header, s.policy);
    if parsed.Err? {
      return None, D.Directive(map[], {});
    }
    d := parsed.value;
    wish := I.Settle(s.lookup, s.agent, r.agent, I.WishOf(s.rules, s.readings, d));
    I.AcceptedIsValidated(s.rules, s.readings, r.header, s.policy, s.lookup, s.agent, r.agent);
  }

  /** And resolving, in the request's tunnel if it has one. */
  method Identify(s: Settings, r: Request, t: I.Tunnel?, a: I.Answers) returns (spec: Option<SpecKey.Spec>)
    requires Sane(s) && D.Canonical(r.header) && I.Fair(a) && I.PicksOk(I.Tunnel.Known(t))
    modifies t
    ensures spec == SpecFor(s, r, old(I.Tunnel.Known(t)), a) && I.PicksOk(I.Tunnel.Known(t))
    ensures spec.Some? ==> I.Buildable(spec.value)
  {
    var wish, d := ReadWish(s, r);
    if wish.None? {
      return None;
    }
    ghost var picks := I.Tunnel.Known(t);
    var resolved := I.ResolveIn(t, wish.value, a);
    if resolved.None? {
      return None;
    }
    ResolvedIsBuildable(wish.value, picks, a, Rest(s, d, r.upgrades));
    spec := Some(I.ToSpec(resolved.value, Rest(s, d, r.upgrades)));
  }

  lemma ResolvedIsBuildable(w: I.Wish, picks: map<string, I.Pair>, a: I.Answers, rest: SpecKey.Spec)
    requires I.Fair(a) && I.Validated(w) && I.PicksOk(picks) && I.ResolveWith(picks, w, a).Some?
    ensures I.Buildable(I.ToSpec(I.ResolveWith(picks, w, a).value, rest))
  {
    if w.browser != [] {
      I.ResolveWithIsSound(picks, w, a);
    } else if I.TunnelKey(w) in picks {
      var v :| I.Validated(v) && v.browser != [] && I.TunnelKey(v) == I.TunnelKey(w) &&
        I.Resolves(v, picks[I.TunnelKey(w)]);
      I.TunnelKeyInjective(v, w);
    }
  }

  /** Open, and in somebody's hands. */
  ghost predicate Ready(client: Client)
    reads client
  {
    client.Valid() && !client.closed && client.inflight >= 1
  }

  /** Whether a settled spec gets a client. */
  predicate Served(spec: Option<SpecKey.Spec>, entries: map<string, Client>, builds: SpecKey.Spec -> bool) {
    spec.Some? && (SpecKey.Key(spec.value) in entries || builds(spec.value))
  }

  /** The answer to a request with this spec, if it has one: an open client built from it when it is served. */
  ghost predicate Answers(out: Admission, spec: Option<SpecKey.Spec>, served: bool)
    reads if out.Admitted? then {out.client} else {}
  {
    match out
    case Unavailable => false
    case Denied => !served
    case Admitted(client, s) => served && spec == Some(s) && client.spec == s && Ready(client)
  }

  /** What an answer leaves in the counts: a request turned away has been finished again. */
  function Counted(n: Tally, out: Admission): Tally {
    match out
    case Unavailable => n
    case Denied => Ended(Began(n), Event(418, 0, 0))
    case Admitted(_, _) => Began(n)
  }

  /** The keys of the cache after a request with this spec, most recent first. */
  function Recent(max: nat, recent: seq<string>, spec: Option<SpecKey.Spec>,
                  builds: SpecKey.Spec -> bool): seq<string> {
    if spec.None? then recent else Lru.After(max, recent, Lru.Get(SpecKey.Key(spec.value), builds(spec.value)))
  }

  /** A request turned away is finished with a teapot; the cache is not touched. */
  method Deny(server: Server, ghost cache: Cache)
    requires cache.Valid() && cache.Faithful()
    modifies server`active, server`finished
    ensures cache.Valid() && cache.Faithful() && server.Count() == Ended(old(server.Count()), Event(418, 0, 0))
    ensures unchanged(cache)
  {
    hide Cache.Valid;
    hide Cache.Faithful;
    server.Finish(Event(TEAPOT, 0, 0));
  }

  /** The flights under way after a request with this spec. */
  function Landed(pending: map<string, Flight>, spec: Option<SpecKey.Spec>): map<string, Flight> {
    if spec.None? then pending else pending - {SpecKey.Key(spec.value)}
  }

  /** How many hold the client of a spec. */
  ghost function HeldFor(holdings: map<string, int>, spec: SpecKey.Spec): int {
    Cache.Held(holdings, SpecKey.Key(spec))
  }

  /** The client of a settled spec, if it can have one. */
  method Fetch(cache: Cache, spec: SpecKey.Spec, builds: bool, t0: int, t1: int, t2: int) returns (client: Client?)
    requires cache.Valid() && cache.Faithful() && cache.clock < t0 < t1 < t2 < MAX_INT64
    modifies cache, cache.entries.Values, cache.pending.Values
    ensures cache.Valid() && cache.Faithful() && cache.clock <= t2
    ensures cache.pending == Landed(old(cache.pending), Some(spec))
    ensures cache.recent == Lru.After(cache.max, old(cache.recent), Lru.Get(SpecKey.Key(spec), builds))
    ensures client != null <==> SpecKey.Key(spec) in old(cache.entries) || builds
    ensures client != null ==> Cache.Handed(client, spec, Cache.Held(old(cache.Holdings()), SpecKey.Key(spec)))
    ensures client != null ==> cache.Cached(client) && (client in old(cache.entries.Values) || fresh(client))
  {
    hide Cache.Valid;
    hide Cache.Cached;
    hide Cache.Holdings;
    hide Cache.Held;
    hide Cache.Faithful;
    hide Cache.Handed;
    hide Lru.After;
    hide SpecKey.Key;
    var evicted;
    client, evicted := cache.Get(spec, builds, t0, t1, t2);
  }

  /** onRequest once the spec is settled, or cannot be. */
  method Proceed(server: Server, cache: Cache, spec: Option<SpecKey.Spec>, builds: SpecKey.Spec -> bool, t0: int,
                 t1: int, t2: int)
    returns (out: Admission)
    requires cache.Valid() && cache.Faithful() && cache.clock < t0 < t1 < t2 < MAX_INT64
    modifies server`active, server`finished, cache, cache.entries.Values, cache.pending.Values
    ensures cache.Valid() && cache.Faithful() && cache.clock <= t2 && cache.pending == Landed(old(cache.pending), spec)
    ensures cache.recent == Recent(cache.max, old(cache.recent), spec, builds)
    ensures Answers(out, spec, Served(spec, old(cache.entries), builds)) && !out.Unavailable?
    ensures out.Admitted? ==>
              cache.Cached(out.client) && out.client.inflight == HeldFor(old(cache.Holdings()), out.spec) + 1 &&
              (out.client in old(cache.entries.Values) || fresh(out.client))
    ensures server.Count() == if out.Denied? then Ended(old(server.Count()), Event(418, 0, 0))
            else old(server.Count())
  {
    hide Cache.Valid;
    hide Cache.Faithful;
    hide Cache.Holdings;
    hide Cache.Cached;
    hide Cache.Held;
    hide Lru.After;
    hide Lru.Front;
    hide Counted;
    hide SpecKey.Key;
    if spec.None? {
      Deny(server, cache);
      return Denied;
    }
    var client := Fetch(cache, spec.value, builds(spec.value), t0, t1, t2);
    if client == null {
      Deny(server, cache);
      return Denied;
    }
    out := Admitted(client, spec.value);
  }

  /** The request is counted, its start observed and its spec settled, beside a cache that is not touched. */
  method Enter(server: Server, ghost cache: Cache, s: Settings, r: Request, t: I.Tunnel?, a: I.Answers)
    returns (spec: Option<SpecKey.Spec>)
    requires Sane(s) && D.Canonical(r.header) && I.Fair(a) && I.PicksOk(I.Tunnel.Known(t)) && cache.Valid() &&
             cache.Faithful()
    modifies server`active, server`started, t
    ensures cache.Valid() && cache.Faithful() && I.PicksOk(I.Tunnel.Known(t)) &&
            server.Count() == Began(old(server.Count()))
    ensures spec == SpecFor(s, r, old(I.Tunnel.Known(t)), a) && (spec.Some? ==> I.Buildable(spec.value))
  {
    hide Cache.Valid;
    hide Cache.Faithful;
    hide I.PicksOk;
    hide SpecFor;
    server.Start();
    spec := Identify(s, r, t, a);
  }

  /** onRequest, when nothing runs beside it but the build of a flight it joins. A draining server touches nothing.
      Otherwise the request is counted and its start observed; a request turned away has been finished and uncounted
      when the answer goes out, and one admitted holds an open client built from exactly the spec its identity and
      directives make. */
  method OnRequest(server: Server, cache: Cache, s: Settings, r: Request, t: I.Tunnel?, a: I.Answers,
                   builds: SpecKey.Spec -> bool, t0: int, t1: int, t2: int)
    returns (out: Admission)
    requires Sane(s) && D.Canonical(r.header) && I.Fair(a) && I.PicksOk(I.Tunnel.Known(t))
    requires cache.Valid() && cache.Faithful() && cache.clock < t0 < t1 < t2 < MAX_INT64
    modifies server`active, server`started, server`finished, t, cache, cache.entries.Values, cache.pending.Values
    ensures cache.Valid() && cache.Faithful() && cache.clock <= t2 && I.PicksOk(I.Tunnel.Known(t))
    ensures server.Count() == Counted(old(server.Count()), out)
    ensures old(server.draining) ==> out.Unavailable? && unchanged(cache) && (t != null ==> unchanged(t))
    ensures !old(server.draining) ==>
              var spec := SpecFor(s, r, old(I.Tunnel.Known(t)), a);
              Answers(out, spec, Served(spec, old(cache.entries), builds)) &&
              (spec.Some? ==> I.Buildable(spec.value)) &&
              cache.recent == Recent(cache.max, old(cache.recent), spec, builds) &&
              cache.pending == Landed(old(cache.pending), spec)
    ensures out.Admitted? ==>
              cache.Cached(out.client) && out.client.inflight == HeldFor(old(cache.Holdings()), out.spec) + 1 &&
              (out.client in old(cache.entries.Values) || fresh(out.client))
  {
    hide Cache.Valid;
    hide Cache.Faithful;
    hide Cache.Holdings;
    hide Recent;
    hide Answers;
    hide Served;
    hide SpecFor;
    hide Landed;
    hide HeldFor;
    hide I.PicksOk;
    hide Cache.Cached;
    if server.draining {
      return Unavailable;
    }
    var found := Enter(server, cache, s, r, t, a);
    out := Proceed(server, cache, found, builds, t0, t1, t2);
  }

  /** Whether a round trip is over once its body has been used like this. */
  predicate Over(up: Upstream, uses: seq<Use>) { up.Failed? || Use.Close in uses }

  /** The observer's event of a request that is over. */
  function Last(up: Upstream, route: Diagnosis.Route, bytesIn: nat, read: nat): Event {
    match up
    case Failed(why, seen) => Event(Diagnosis.Told(why, route, seen).code, bytesIn, 0)
    case Response(status, _) => Event(status, bytesIn, read)
  }

  /** The round trip of an admitted request and all that its caller does with the body. Once that is over the client has
      been given back and the request finished, once each; before, neither. The cache is as it should be throughout. */
  method Exchanged(server: Server, ghost cache: Cache, client: Client, route: Diagnosis.Route, sent: CountingBody,
                   up: Upstream,
                   uses: seq<Use>)
    returns (read: nat)
    requires cache.Valid() && cache.Cached(client) && Ready(client)
    modifies client`inflight, client`closed, client`closes, server`active, server`finished
    ensures cache.Valid() && client.Valid() && !client.closed
    ensures if Over(up, uses)
            then client.inflight == old(client.inflight) - 1 &&
                 server.Count() == Ended(old(server.Count()), Last(up, route, sent.n, read))
            else client.inflight == old(client.inflight) && server.Count() == old(server.Count())
  {
    cache.AllOk();
    var hook := RoundTrip(server, client, route, sent, up);
    read := 0;
    if hook != null {
      read := UseBody(hook, uses);
    }
    cache.ReleaseKeeps(client);
  }

  /** One request from its admission to the last use of its body, when nothing runs beside it but the build of a flight
      it joins. A request that is over has been started once and finished once, and its client is in as many hands as
      before; whatever became of it, the cache is as it should be for the next one. */
  method Serve(server: Server, cache: Cache, s: Settings, r: Request, t: I.Tunnel?, a: I.Answers,
               builds: SpecKey.Spec -> bool, t0: int, t1: int, t2: int,
               route: Diagnosis.Route, sent: CountingBody, up: Upstream, uses: seq<Use>)
    returns (out: Admission, read: nat)
    requires Sane(s) && D.Canonical(r.header) && I.Fair(a) && I.PicksOk(I.Tunnel.Known(t))
    requires cache.Valid() && cache.Faithful() && cache.clock < t0 < t1 < t2 < MAX_INT64
    modifies server`active, server`started, server`finished, t, cache, cache.entries.Values, cache.pending.Values
    ensures cache.Valid() && cache.Faithful() && cache.clock <= t2 && I.PicksOk(I.Tunnel.Known(t))
    ensures out.Unavailable? <==> old(server.draining)
    ensures !old(server.draining) ==>
              (out.Admitted? <==> Served(SpecFor(s, r, old(I.Tunnel.Known(t)), a), old(cache.entries), builds))
    ensures server.Count() == if out.Admitted? && Over(up, uses)
                              then Ended(Began(old(server.Count())), Last(up, route, sent.n, read))
                              else Counted(old(server.Count()), out)
    ensures out.Admitted? && (up.Failed? || Use.Close in uses) ==>
              server.started == old(server.started) + 1 && server.active == old(server.active) &&
              |server.finished| == |old(server.finished)| + 1
    ensures out.Admitted? ==>
              out.client.spec == out.spec && out.client.Valid() && !out.client.closed &&
              out.client.inflight == HeldFor(old(cache.Holdings()), out.spec) + if Over(up, uses) then 0 else 1
  {
    hide Cache.Valid;
    hide Cache.Faithful;
    hide Cache.Holdings;
    hide Cache.Cached;
    hide HeldFor;
    hide Recent;
    hide Served;
    hide SpecFor;
    hide Landed;
    hide I.PicksOk;
    hide Last;
    out := OnRequest(server, cache, s, r, t, a, builds, t0, t1, t2);
    read := 0;
    if out.Admitted? {
      read := Exchanged(server, cache, out.client, route, sent, up, uses);
    }
  }

  /** A request whose accepted header names a listed profile is impersonated with that profile's browser and OS,
      whatever its User-Agent, the policy's defaults and its tunnel's history. */
  lemma ProfileReachesTheSpec(s: Settings, r: Request, picks: map<string, I.Pair>, a: I.Answers)
    requires Sane(s) && D.Canonical(r.header) && I.Fair(a) && I.PicksOk(picks) && D.Accepts(s.rules, r.header, s.policy)
    requires var w := I.WishOf(s.rules, s.readings, DirectiveOf(s, r)); w.profile != "" && s.lookup(w.profile).Some?
    ensures var p := s.lookup(I.WishOf(s.rules, s.readings, DirectiveOf(s, r)).profile).value;
            SpecFor(s, r, picks, a).Some? && SpecFor(s, r, picks, a).value.browser == p.browser &&
            SpecFor(s, r, picks, a).value.os == p.os
  {
    I.AcceptedProfileIsPinned(s.rules, s.readings, r.header, s.policy, s.lookup, s.agent, r.agent, picks, a);
  }
}
