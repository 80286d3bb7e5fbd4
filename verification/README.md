# TIP, modelled in Dafny

TIP is an HTTP proxy that sends each request on with the TLS and HTTP fingerprint of a chosen browser. This project models
the parts of it that hold state or decide something, and proves what they keep.

* **The lifecycle** (`Lifecycle*.dfy`). The client cache, the reference-counted clients, the requests and the drain form one
  transition system, with a program counter for each thread. A step is one lock section or one atomic operation; a lock
  section that retires clients is several steps, because `Release` runs beside it without the lock. Two constants of the
  configuration say whether `Release` and the admission of a request are one step or the two that the source takes, so that
  each claim is stated at the granularity at which it is true, and each claim that needs more than the source gives has a
  run that breaks it and the exact condition under which it holds. `LifecycleBooks` keeps double-entry accounts (each shared
  counter is a sum over the threads), `LifecycleInvariant` is the invariant that all sixteen groups of actions keep,
  `LifecycleSteps` says what one thread's step leaves alone in the others, and `LifecycleTheorems`, `LifecycleShutdown`,
  `LifecycleWaiters`, `LifecycleProgress`, `LifecycleLaws` and `LifecycleTraces` hold the results.
* **The cache as a class** (`Cache.dfy`, `Lru.dfy`). One method for each function and lock section of the source, over a map
  of clients with timestamps, against a ghost list of keys in order of use; the list moves as a move-to-front list does, and
  the theorems about recency, inclusion and misses are about that list.
* **The cache key** (`Json.dfy`, `SpecKey.dfy`). The JSON text of a spec, with its escapes and omitted fields, and a decoder
  that inverts it.
* **One request, sequentially** (`Exchange.dfy`). Admission, the round trip, the bodies with their counters and hooks, and
  all of them composed into one request from its admission to the last use of its body.
* **Directives and policy** (`Directives.dfy`, `Configuration.dfy`, `HostPatterns.dfy`): shaping, defaults, exclusivity, what
  a configuration does to a request, and the patterns of proxy hosts; `DirectiveLaws.dfy` says the same of the text of
  headers and names.
* **Identity** (`Identity.dfy`, `Resolution.dfy`, `Inference.dfy`, `Impersonation.dfy`): profiles, resolution on lists and
  again on the slices that the source filters in place, what a tunnel remembers, what the text of a User-Agent stands for,
  and what of all that reaches the spec.
* **Printers, scanners, streams**: credential redaction (`Redaction.dfy`, `RedactionLaws.dfy`), the Proxy-Status entry and its reader
  (`ProxyStatus.dfy`), what such an entry shows of credentials (`Exposure.dfy`), the diagnosis of a failed round trip
  (`Diagnosis.dfy`), dialing through a CONNECT hop (`Connect.dfy`), route patterns (`Routes.dfy`). `Texts.dfy` and
  `Options.dfy` are shared helpers.

What the model takes as given: goproxy calls `RoundTrip` once for an admitted request and closes the body it got at least
once for the request to end; a build returns a fresh client or an error; the configured capacity is at least one; header maps
hold no two names that differ only by case. What libraries decide (whether a field's value is valid, how a text parses as
cookies or as a URL, the families' own User-Agents) is a parameter, constrained only where a row below says so.

Four facts of the code decide how the main claims read:

* `Release` is a decrement and then a load of `retired`. A thread paused between them can close a client that another thread
  has hit, and a third has evicted, since then (`SplitReleaseClosesClientInUse`). That is the only way a client in use is
  ever closed (`ClosesInUseExactly`).
* A waiter acquires the client after the builder has unlocked, so it may receive one that is retired and closed already
  (`WaiterMayGetClosedClient`). With `Release` as one step, and in two whenever nobody acquires a client inside the gap of
  another `Release` of it, that happens exactly when by then the client has been retired and whoever took it open has let it
  go (`WaiterGetsClosedExactly`). Hits and builders never receive one.
* The draining check and the count of a request are two steps, so a request may slip past a drain that has returned nil
  (`SplitAdmissionOutlivesShutdown`), exactly when it stood between the two as the drain returned (`DrainIsFinalExactly`).
* Redaction ends a run of credentials at any white space, and the printer of Proxy-Status then writes a tab or a line break
  as a question mark. A refusal whose first line has such a character inside the credentials of a URL is therefore printed
  with the credentials showing (`TabShowsCredentials`), and that is the only way (`CredentialsAreToldExactly`). The two other
  headers never show any.

## Model

| member | source | states |
|---|---|---|
| LifecycleInvariant.StepKeeps | internal/impersonate/cache.go:53-160 | Every enabled event, at either granularity of Release and admission, keeps the invariant: lock ownership, cache shape, each thread's log and references, every shared counter equal to its sum over the threads, and a thread on its way to each close that is due. |
| LifecycleInvariant.RunKeeps | internal/impersonate/cache.go:53-160 | The same over whole runs. |
| LifecycleTheorems.NoCloseIsLost | internal/impersonate/client.go:45-70 | However the atomic steps of Release and retire interleave, a retired client that nobody holds is closed, or some thread owes it its close: in every continuation, whatever the others do, the client is closed by the time that thread has taken two more steps, and until then it can always take its next one. |
| LifecycleTheorems.SingleFlight | internal/impersonate/cache.go:53-129 | In every reachable state no key is both cached and pending, a pending key has exactly one builder and any other none, each cached client sits under one key and is neither retired nor closed, and the cache is within its bound. |
| LifecycleTheorems.GetReturnsItsKey | internal/impersonate/cache.go:53-99 | Whoever holds a client asked for the key it was built for; a hit and a builder took it while it was open; the in-flight count is the number of holders. |
| LifecycleTheorems.EveryFlightLands | internal/impersonate/cache.go:62-81 | A flight that has not landed has exactly one thread that will land it, and one that has landed has none. |
| LifecycleTheorems.HolderSafety | internal/impersonate/client.go:45-70 | With Release as one step, and in every run of the split one in which nobody acquires a client inside the gap of another Release of it, a client taken open stays open while it is held; hits and builders always take it open. |
| LifecycleTheorems.ClosesInUseExactly | internal/impersonate/client.go:45-49 | An event closes a client that somebody holds if and only if it is the closing half of a Release and the client has been acquired again since the decrement. |
| LifecycleTheorems.RequestAccounting | internal/proxy/roundtrip.go:52-95 | In every reachable state `active` is the number of admitted unfinished requests; a request that is gone has observed one start and one finish and released what it acquired exactly once, and no request ever does any of these twice. |
| LifecycleTheorems.ObserverConservation | internal/impersonate/cache.go:53-89 | When no thread is between a lock section and its notifications, hits plus misses is the number of Gets begun, misses is builds plus failed builds, and builds minus evictions is the number of entries plus those Cache.Close removed unannounced. |
| LifecycleTheorems.SweepTakesIdle | internal/impersonate/cache.go:131-146 | In every run, an entry that a sweep removes has no holder at that moment and was last used before the cutoff, and it is counted. |
| LifecycleShutdown.ShutdownTheorem | internal/proxy/proxy.go:107-119 | Once Drain has returned nil and the Cache.Close after it has finished, with admission in one step (or in two with nobody between them as Drain returns) and Release in one step or two: no request is active, nothing is cached or pending, and every client ever built has been closed exactly once. |
| LifecycleShutdown.DrainIsFinalExactly | internal/proxy/handler.go:55-58 | When Drain returns nil, some continuation has an active request if and only if a thread stands between the draining check and its count. |
| LifecycleWaiters.WaiterGetsClosedExactly | internal/impersonate/cache.go:91-99 | With Release as one step, and in every run of the split one in which nobody, this waiter included, acquires a client inside the gap of another Release of it: a waiter takes a closed client if and only if it has been retired by then and no thread holds it that took it open. |
| LifecycleProgress.NeverWedged | internal/impersonate/cache.go:53-160 | With a capacity of at least one, in every reachable state in which some thread is unfinished, some thread that is there already can take a step: neither the lock nor a flight nor a drain ever wedges the system. |
| LifecycleLaws.LookupDecides | internal/impersonate/cache.go:53-70 | A Get looks once, under a free lock: it takes the cached client, or joins the flight under way, or registers one, and changes nothing else of the cache. |
| LifecycleLaws.WaiterWaits | internal/impersonate/cache.go:62-99 | A waiter goes on only when its flight has landed, with the client that brought or with an error. |
| LifecycleLaws.RoundTripDecides | internal/proxy/roundtrip.go:52-80 | A response is streamed with the client held; a failure is on its way to release it. |
| LifecycleLaws.ReleaseDecides | internal/impersonate/client.go:45-49 | A Release gives one holding back; as one step it also closes a retired client nobody holds any more, and taken apart it closes nothing yet and looks again if it was the last. |
| LifecycleTraces.WaiterMayGetClosedClient | internal/impersonate/cache.go:65-98 | A run in which a waiter is handed a closed client, with Release as one step. |
| LifecycleTraces.SplitReleaseClosesClientInUse | internal/impersonate/client.go:45-49 | A run in which the second half of a Release closes a client that a hit took open and still holds. |
| LifecycleTraces.SplitAdmissionOutlivesShutdown | internal/proxy/handler.go:55-58 | A run in which, after Drain returned nil and Cache.Close finished, a request is active and has built a client that is open. |
| Cache.Client.Release | internal/impersonate/client.go:45-49 | Gives one holding back; closes exactly when the client is retired and this was the last holder. |
| Cache.Client.Retire | internal/impersonate/client.go:64-70 | Retires; closes exactly when nobody holds the client. |
| Cache.Client.Close | internal/impersonate/client.go:51-57 | The closer runs once however often Close is called, on a retired client or any other. |
| Cache.Cache.LeastRecent | internal/impersonate/cache.go:111-120 | The search over the map returns an entry whose timestamp no other entry's is below, or the empty key from an empty map. |
| Cache.Cache.Evict | internal/impersonate/cache.go:122-129 | Removes the entry if there is one and retires its client, which is closed exactly if nobody holds it; every other entry and its place in the list stay. |
| Cache.Cache.MakeRoom | internal/impersonate/cache.go:101-106 | The eviction loop ends after at most one round; a full cache loses the last key of the recency list and only that. |
| Cache.Cache.Insert | internal/impersonate/cache.go:101-109 | The new client enters at the front of the list, in the place of the one used longest ago exactly if the cache was full, and is acquired. |
| Cache.Cache.Lookup | internal/impersonate/cache.go:54-70 | The first lock section of Get: a hit acquires the cached client and moves its key to the front; a flight under way is joined with nothing changed; otherwise a fresh flight is registered. |
| Cache.Cache.Publish | internal/impersonate/cache.go:73-80 | The second lock section of Get: the key is no longer pending, and a built client is stored and held once, at the cost of at most the least recent entry; a failed build changes nothing else. |
| Cache.Cache.Share | internal/impersonate/cache.go:91-99 | A waiter acquires its flight's client, whether that is still cached or not; the list moves only if it is. |
| Cache.Cache.Sweep | internal/impersonate/cache.go:131-146 | Removes an entry exactly if its last use is before `now` less the idle time and nobody holds it, closes what it removes, and returns their number. |
| Cache.Cache.GetAndSweep | internal/impersonate/cache.go:53-146 | A client that a Get has handed out, and that may have been given back since, stays cached and open over a sweep whose cutoff is no later than the Get, or while it is held; with a later cutoff and nobody holding it, it is removed and closed. |
| Cache.Cache.Close | internal/impersonate/cache.go:154-160 | Empties the cache; each client is retired, and closed exactly if nobody holds it. |
| Cache.Cache.Get | internal/impersonate/cache.go:53-99 | Cache transparency, for a hit, a build, and a share of a build under way: whoever is returned is cached, open, built from a spec equal to the one asked for, and in exactly one more pair of hands than before; the list of keys moves as the move-to-front list does; one client is evicted exactly when a build succeeds into a full cache; the key is no longer pending. |
| Cache.Cache.JoinFlight | internal/impersonate/cache.go:62-99 | A Get that finds its key being built shares the client that the build brings, now held by both, or nothing if it fails; the list moves by one Get. |
| Cache.Cache.ReleaseKeeps | internal/impersonate/client.go:45-49 | Giving a client back keeps the cache's invariant, whether the client is still cached or not. |
| Cache.GetAll | internal/impersonate/cache.go:53-120 | LRU refinement: after any Gets at increasing clock readings on a new cache, its keys in order of use are those of the move-to-front list, and it has missed exactly as often. |
| Lru.RunIsRecency | internal/impersonate/cache.go:101-120 | The list after any Gets is the first `Max` of the distinct keys served, most recent first. |
| Lru.CachedExactly | internal/impersonate/cache.go:101-120 | A key is cached if and only if it has been served and fewer than `Max` other keys have been served since it last was. |
| Lru.ServedAlike | internal/impersonate/cache.go:53-89 | If success of a build depends on the key only, which Gets are served does not depend on the capacity. |
| Lru.Inclusion | internal/impersonate/cache.go:101-120 | Then the smaller of two caches fed the same Gets is always the front of the larger. |
| Lru.MissesFall | internal/impersonate/cache.go:101-120 | And the larger misses no more often. |
| Lru.AfterKeeps | internal/impersonate/cache.go:101-109 | A Get keeps the keys distinct and within the capacity, and removes nothing but the least recent key of a full cache, on a miss. |
| Json.PrintParses | internal/directive/spec.go:21-24 | Parsing what the encoder prints, escapes included, gives the value back, in front of any text that does not begin with a digit. |
| Json.EscapesAre | internal/directive/spec.go:21-24 | The characters that the encoder does not write as they are, each with its escape. |
| SpecKey.KeyReads | internal/directive/spec.go:5-24 | The decoder recovers every spec from its key, omitted fields and all. |
| SpecKey.KeyTells | internal/directive/spec.go:5-24 | A JSON reader finds each field of the spec in the key under its name, and none that is empty. |
| SpecKey.KeyInjective | internal/directive/spec.go:5-24 | Specs with the same key are equal. |
| Exchange.CountingBody.Read | internal/proxy/body.go:15-19 | What is read is the next stretch of the body, and the count grows by its length. |
| Exchange.Replayable.Read | internal/proxy/body.go:58-64 | A read that returns anything marks the body as consumed. |
| Exchange.Replayable.Replay | internal/proxy/body.go:66-71 | A replay that is allowed has the whole body before it; it is refused once anything of it has been read. |
| Exchange.Server.Drain | internal/proxy/proxy.go:107-119 | Admission is off afterwards; the loop ends at the first tick at which the requests finished meanwhile leave none active, or at the deadline, and only then reports how many are left. |
| Exchange.CloseHook.Close | internal/proxy/body.go:27-31 | The first Close releases the client once and finishes the request once, with the bytes read so far; a later one changes neither. |
| Exchange.RoundTrip | internal/proxy/roundtrip.go:52-80 | A failure has released the client and finished the request, with the answer's status, when it returns; a response leaves both untouched, for its body's hook. |
| Exchange.UseBody | internal/proxy/roundtrip.go:68-78 | However a response's body is read and closed, and however often: if it is closed at all, the client is released once and the request finished once with the bytes read until then, and if not, neither has happened. |
| Exchange.Identify | internal/proxy/handler.go:63-100 | Parsing, profile, inference and resolution in their order give the spec that those four make, and it passes Build's checks. |
| Exchange.Proceed | internal/proxy/handler.go:93-117 | A request with a spec is admitted exactly if its key is cached or the spec can be built, by it or by the request whose build it joins, with an open client built from it; one turned away is finished with 418, and the cache's list moves by this one Get or not at all. |
| Exchange.OnRequest | internal/proxy/handler.go:54-118 | A draining server changes nothing; otherwise the start is observed, a request turned away has been finished and uncounted when the answer goes out, and one admitted is counted and holds an open, cached client built from exactly its spec. |
| Exchange.Serve | internal/proxy/roundtrip.go:29-80 | One request from its admission to the last use of its body: if the round trip fails or the body is closed, the request has been started once and finished once and its client is in as many hands as before; otherwise it is still counted and held once more. The cache is valid, and fit for the next request, in every case. |
| Exchange.ProfileReachesTheSpec | internal/proxy/handler.go:71-100 | An accepted request that names a listed profile gets a spec with that profile's browser and OS, whatever its User-Agent, the defaults and its tunnel's history. |
| Impersonation.OwnAgentReachesTheSpec | internal/proxy/handler.go:82-89 | An accepted request with a true match and no browser named, whose User-Agent is a family's own on some system: the spec's browser is one whose own it is, and so is its system if none is named; without a system named it always gets a spec. |
| Impersonation.MarkerReachesTheSpec | internal/proxy/handler.go:82-89 | With any other User-Agent that holds a family's marker: the spec's browser is that family, Edge before Firefox before Chrome, and its system the one the text says, if none is named; Chrome stands in for Edge on iOS. |
| Impersonation.UnmatchedIgnoresTheAgent | internal/proxy/handler.go:82-89 | Without a true match, or with a browser named, the spec does not depend on the User-Agent. |
| Impersonation.UnknownAgentsAreAlike | internal/proxy/handler.go:82-89 | Two User-Agents that are nobody's own and hold no marker lead to the same spec. |
| Impersonation.WishedReachesTheSpec | internal/proxy/handler.go:93-100 | Without a match and a profile the merged fields decide: no browser in them, no impersonation; else a pair that they leave open, one of fourteen, or a refusal exactly if there is none. |
| Impersonation.ProfileDecides | internal/proxy/handler.go:71-81 | An accepted request with a profile among its merged fields gets exactly that profile's browser and system if it is listed, and is turned away if it is not. |
| Impersonation.UpgradesForceHttp1 | internal/proxy/handler.go:90-92 | A WebSocket upgrade forces HTTP/1 unless something is forced already, and changes nothing else of the spec. |
| Directives.SplitList | internal/directive/parse.go:128-135 | The loop yields each comma-separated piece, trimmed and in lower case, in order. |
| Directives.ParsePairs | internal/directive/parse.go:137-158 | Succeeds exactly when the text reads as cookies and every name is allowed and given once, and then has the values and the order of the names. |
| Directives.ListsAreRead | internal/directive/parse.go:108-135 | A list is refused exactly if it is one blank line; otherwise, however it is spread over header lines, its items are the pieces of each line in turn, trimmed, in lower case and free of commas. |
| Directives.ListReads | internal/directive/parse.go:111-116 | Round trip: a list of such items, joined by commas on one line, is read as exactly that list. |
| Directives.PairsAreRead | internal/directive/parse.go:137-158 | Pairs are accepted if and only if the text reads as cookies, every name is allowed and no two are equal but for case; then each name has its value, the order is the order sent, and there is nothing else. |
| DirectiveLaws.NameIsFor | internal/directive/parse.go:26-38 | A header gives exactly the directive whose name stands after the prefix, in any case. |
| DirectiveLaws.ItemIsRead | internal/directive/parse.go:108-135 | For the three list directives, a line without a comma is one item, trimmed and in lower case. |
| DirectiveLaws.ItemIsTrimmed | internal/directive/parse.go:128-135 | Trimming takes away the spaces, tabs and line breaks around an item and nothing else. |
| DirectiveLaws.ScalarIsRead | internal/directive/parse.go:108-126 | For the thirteen scalar directives, the value is taken as sent if it is sent once and not blank, and refused otherwise. |
| DirectiveLaws.PairsAreTaken | internal/directive/parse.go:108-158 | For the two directives of pairs, lines are joined by semicolons, and accepted exactly if they read as cookies with the listed names, in any case and none twice. |
| DirectiveLaws.AcceptedExactly | internal/directive/parse.go:30-78 | Header by header: under every policy NewPolicy can make, a request is accepted if and only if each of its directives is known, permitted, well shaped and valid, it does not itself name two identities, and the proxy it ends up with meets the demands. |
| Directives.ReadHeader | internal/directive/parse.go:31-51 | Whatever order the map is walked in, the result is the shaped value of every known, permitted, well-shaped directive, and there is no issue exactly when every prefixed header is one. |
| Directives.Merge | internal/directive/parse.go:52-58 | The loop yields the undisplaced defaults with the request over them. |
| Directives.Validate | internal/directive/schema.go:182-185 | No issue exactly when every field is valid and a profile stands without a browser, an OS or a true match. |
| Directives.ProxyAllowed | internal/directive/policy.go:87-106 | True exactly when the list is empty, or the value is a URL that some pattern matches, by host or wildcard and by port if it has one. |
| Directives.Parse | internal/directive/parse.go:30-78 | Accepts exactly the headers that read without issue, merge into valid fields and meet the demands on the proxy; the directive is then those fields and the names the request gave; a refusal names an issue. |
| Configuration.NewPolicy | internal/directive/policy.go:19-48 | In whatever order the map of defaults is walked, and whether or not their names collide: a policy is made exactly when all denied names are known and the defaults, gathered into a header, are an acceptable request on their own; its defaults are that request's directives and its deny list the names given. |
| Configuration.GatheredAlike | internal/directive/policy.go:31-38 | Defaults with distinct names make the same header in whatever order they are walked. |
| Configuration.CollidingScalarsAreRefused | internal/directive/policy.go:31-41 | Two configured names for one directive that takes a single value are refused in every order. |
| DirectiveLaws.DenyReads | internal/directive/policy.go:19-30 | A configured name denies its directive in any case, with or without the prefix, and with any white space around. |
| DirectiveLaws.DefaultReads | internal/directive/policy.go:31-38 | And it gives one its default under the same conditions. |
| DirectiveLaws.PatternIsTrimmed | internal/directive/policy.go:52-60 | A proxy pattern is kept in lower case, without the white space around it. |
| Configuration.ProxyHosts | internal/directive/policy.go:52-65 | Accepts exactly when every entry, trimmed and in lower case, is neither empty nor holds a slash, an @, a space or a tab, and the default proxy, if any, passes them. |
| HostPatterns.PatternReads | internal/directive/policy.go:108-113 | A host, a host with a port, an address in brackets and one with a port are each split into the host and the port they were written from. |
| HostPatterns.SplitsExactly | internal/directive/policy.go:108-113 | A pattern is split into a host and a port if and only if it is a plain host or an address in brackets, a colon and a plain port; any other is a host, less the brackets at its ends, at any port. |
| HostPatterns.WildcardCovers | internal/directive/policy.go:96-104 | A wildcard matches exactly the hosts that end in a dot and its suffix, and its own text. |
| HostPatterns.HostCovers | internal/directive/policy.go:96-104 | A host alone matches exactly that name at every port; with a port, exactly that name at that port. |
| HostPatterns.AddressCovers | internal/directive/policy.go:96-113 | So does an address in brackets. |
| HostPatterns.WildcardPortCovers | internal/directive/policy.go:96-104 | A wildcard with a port matches what it does without, at that port only. |
| Configuration.PermitsEach | internal/directive/policy.go:87-106 | A list permits exactly what one of its patterns does. |
| Configuration.OneHostAtOnePort | internal/directive/policy.go:87-106 | Under the policy of one host with a port, exactly those requests are accepted that would be without it and whose proxy, if they end up with one, is that host at that port. |
| Configuration.OneHost | internal/directive/policy.go:87-106 | Under that of a host alone, that host at any port. |
| Configuration.FieldsComeFrom | internal/directive/parse.go:52-98 | For every accepted header: a directive is in the result if and only if a header names it, or it has a default and no header names it or a directive of the other identity group; the value is that header's, shaped, or else the default; and exactly the named ones count as the request's own. |
| Configuration.MergeIsExclusive | internal/directive/parse.go:80-98 | Merging never brings together two identities that request and defaults each keep apart. |
| Configuration.ConfigurationIsTransparent | internal/directive/parse.go:30-98 | Under any policy NewPolicy can make, exactly those requests are accepted that are valid on their own, hold no denied directive, and meet the demands on the proxy after merging. |
| Configuration.ConfigurationNeverBreaks | internal/directive/policy.go:19-48 | Without demands on the proxy, a request that is valid on its own and holds no denied directive is accepted. |
| Configuration.ClashIsOwn | internal/directive/schema.go:182-185 | Under every policy NewPolicy can make, the merged fields clash if and only if the request's own headers name a profile beside a browser, an OS or a true match: no default ever takes part in a clash or hides one. |
| Configuration.RequireProxyIsFair | internal/directive/policy.go:67-76 | With the demand for a proxy some request is accepted if and only if RequireProxy accepts the policy and there is a default proxy or some valid value that the patterns permit; so what it refuses could have passed no request. |
| Identity.ResolveIsSound | internal/directive/directive.go:62-83 | For a non-empty browser list Resolve succeeds if and only if some wanted browser supports some wanted OS, and then returns such a pair. |
| Resolution.ResolveSlices | internal/directive/directive.go:62-76 | Resolve over arrays, with its filters in place: the result is that of Resolve on the lists, in fresh slices, and no array that was there before is altered: not the directive's lists, not the families, not the shared table of systems. |
| Resolution.ChooseFrom | internal/directive/directive.go:78-83 | The slice chosen is fresh, even if all is wanted, and holds what Choose says; what is wanted and what is available stay as they are, even if they share an array. |
| Resolution.DeleteAbsent | internal/directive/directive.go:82 | The filter overwrites the array it is given: in front what is kept, in order, and cleared cells behind it. |
| Identity.ResolveIsComplete | internal/directive/directive.go:62-83 | Every such pair is what Resolve returns for some answers of `pick`. |
| Identity.ResolvedIsBuildable | internal/impersonate/build.go:56-65 | Every resolved spec passes the browser and OS checks of Build. |
| Identity.TunnelKeyInjective | internal/proxy/handler.go:121 | On validated token lists, only equal lists share a tunnel key. |
| Identity.ResolveIn | internal/proxy/handler.go:120-136 | The answer is the remembered identity for the key if there is one, else a fresh resolution, which is remembered; every remembered identity stays legal for the lists it was picked for. |
| Identity.ResolveWithIsSound | internal/proxy/handler.go:120-136 | In a tunnel too, a request gets an identity exactly when there is a legal one, and then gets a legal one. |
| Identity.TunnelIsSticky | internal/proxy/handler.go:120-136 | In a tunnel whose requests run one at a time, two requests with equal lists both get the same legal identity, or neither gets one. |
| Identity.InferIsSupported | internal/impersonate/infer.go:10-59 | An inferred browser is a family and an inferred OS one that it supports; a family's own User-Agent leads to a pair whose User-Agent it is. |
| Inference.OwnIsFound | internal/impersonate/infer.go:10-19 | A User-Agent is recognised if and only if it is a family's own on one of its systems, and then as such a pair. |
| Inference.MarkersAreRead | internal/impersonate/infer.go:20-59 | Any other stands for the family whose literal marker it holds and for the system whose literal name it holds, in the source's order of precedence, and for nothing without a marker. |
| Identity.ProfileIsPinned | internal/proxy/handler.go:71-93 | A known profile is resolved to exactly its browser and OS, under every User-Agent, set of picks and answer of `pick`. |
| Identity.AcceptedProfileIsPinned | internal/proxy/handler.go:63-93 | The same from an accepted header on, under every policy. |
| Identity.NamedIsHonoured | internal/proxy/handler.go:63-100 | From an accepted header to the identity given: a browser or an OS that the header itself names is among those it names, whatever the User-Agent, the policy's defaults, the tunnel's history and the answers of `pick`; and a header that names both is turned away exactly when no browser it asks for supports an OS it asks for. |
| Identity.AcceptedIsValidated | internal/proxy/handler.go:63-93 | What is settled from an accepted header consists of validated tokens. |
| Redaction.OnlyCredentialsChange | internal/logging/redact.go:26-34 | Input and output are cut into the same pieces: text that is kept as it is, and credentials shown as `***`, each free of slashes and spaces, right after a scheme and `://` and before an @, and reaching up to the last @ they can. |
| Redaction.RedactionIsComplete | internal/logging/redact.go:26-34 | In the output every scheme with credentials after it has exactly `***` before the run's last @, and a second application changes nothing. |
| RedactionLaws.UrlIsRedacted | internal/logging/redact.go:26-34 | By characters: a scheme of ASCII letters (or the two that fold to them), digits, plus, dot and hyphen, starting with a letter, then `://`, credentials without slash or white space, and an @, after text in which no URL has begun and before text in which no @ comes before a slash or white space: the credentials become three stars and the rest is redacted on its own. |
| RedactionLaws.ProxyUrlIsRedacted | internal/logging/redact.go:26-34 | So a URL `scheme://credentials@host` becomes `scheme://***@host`. |
| RedactionLaws.TextIsKept | internal/logging/redact.go:26-34 | A text in which no @ comes after a scheme and `://` without a slash or white space between is returned as it is. |
| RedactionLaws.RedactsApart | internal/logging/redact.go:26-34 | What stands before white space and what begins with it are redacted independently. |
| Redaction.SingleLineKeepsClean | internal/proxy/errors.go:14 | Replacing line breaks by spaces uncovers no credentials. |
| ProxyStatus.SfString | internal/proxy/status.go:42-58 | The rune loop writes the quoted and escaped string. |
| ProxyStatus.RunesAreQuoted | internal/proxy/status.go:42-58 | Quoting goes rune by rune: a quote or backslash behind a backslash, an unprintable character as a question mark, any other as itself. |
| ProxyStatus.String | internal/proxy/status.go:23-39 | The builder writes `tip` and the parameters that say something, in order. |
| ProxyStatus.EntryReads | internal/proxy/status.go:23-58 | A parser after section 4.2 of RFC 8941 recovers `tip` and exactly the non-empty parameters, with unprintable characters as `?`; no quote, backslash or semicolon in a text makes or ends a parameter. |
| ProxyStatus.FieldsAreRead | internal/proxy/status.go:23-58 | Under each key the reader finds the field of the status it belongs to, and nothing if that says nothing. |
| ProxyStatus.EntryReadsExactly | internal/proxy/status.go:23-58 | This is so if and only if `error` is empty or a token and the status has at most fifteen digits. |
| ProxyStatus.ErrorTypeIsToken | internal/proxy/status.go:61-108 | Every error type that a failure maps to is a token. |
| ProxyStatus.FailureReads | internal/proxy/errors.go:27-38 | So the entry of every failure is read back, with any three-digit status from the hop. |
| Diagnosis.CredentialsAreToldExactly | internal/proxy/errors.go:25-44 | Of the three headers made of a failure, X-Tip-Error and X-Tip-Proxy-Error never show the credentials of a URL; the printed Proxy-Status does if and only if the refusal's line has a tab, a form feed or a line break inside the credentials of a URL, or the next hop shows some, which a hop without a slash cannot. A line without such characters never does. |
| Diagnosis.TabShowsCredentials | internal/proxy/status.go:42-58 | The input that does: a refusal whose first line is `http://u`, a tab, `:p@h`. |
| Exposure.EntryShows | internal/proxy/status.go:23-58 | A printed entry shows credentials exactly when one of its two texts does once its unprintable characters are question marks; quoting and escaping neither uncover nor hide any. |
| Exposure.CleanShowsExactly | internal/proxy/status.go:42-58 | A redacted text is clean when printed if and only if no white space other than a space breaks the credentials of a URL in it. |
| Exposure.RedactExposes | internal/logging/redact.go:26-34 | Redaction leaves a text exposed to the printer exactly when it was before. |
| Diagnosis.AnswersTell | internal/proxy/errors.go:25-44 | 504 exactly for the two timeout types, the response timeout exactly when the origin was reached and no hop was under way, the hop's own status exactly for a refusal, and never a dial failure for a request through a proxy. |
| Diagnosis.RefusalIsTold | internal/proxy/errors.go:25-44 | A refusal: 502, `http_request_error`, the hop's status, its line redacted, and its text behind `proxy_rejected: `. |
| Diagnosis.HopIsTold | internal/proxy/status.go:61-108 | A hop that failed otherwise: 504 and `connection_timeout` if its own cause is the end of a context or a timeout, else 502 and the type of its handshake or of its dial. |
| Diagnosis.TimeoutIsTold | internal/proxy/roundtrip.go:131-156 | A timeout beside the hop: 504, `http_response_timeout` if the origin was reached and no hop was under way, else `connection_timeout`. |
| Diagnosis.TimeoutSays | internal/proxy/roundtrip.go:131-156 | And the words of its message, from the hop phase and whether the origin was reached. |
| Diagnosis.OtherIsTold | internal/impersonate/client.go:72-103 | Any other failure, by the words in its text and the facts of its error: 502, kind and error type, a failed dial being the proxy's if there is one. |
| Diagnosis.NextHopIsTold | internal/proxy/roundtrip.go:131-140 | The next hop is the upstream proxy's host if there is one, else the request's. |
| Diagnosis.EntryTells | internal/proxy/errors.go:25-44 | A reader of the Proxy-Status field finds exactly that entry in it. |
| Connect.HeadEndStays | internal/connect/connect.go:193-194 | Where a header section ends does not depend on how much has arrived after it. |
| Connect.Reader.ReadHead | internal/connect/connect.go:193-198 | However the bytes arrive, exactly the header section is consumed, and buffer and connection hold the rest in order. |
| Connect.Reader.ReadWrittenHead | internal/connect/connect.go:193-198 | Of lines that are neither empty nor hold a line break, each ended by CRLF or LF, then a blank line, then anything: exactly the lines and the blank line are consumed. |
| Connect.Tunnel.Read | internal/connect/connect.go:221-227 | A read delivers the next bytes, the buffered ones first, and returns nothing only at the end. |
| Connect.Tunnel.ReadAll | internal/connect/connect.go:207-227 | Reads of any sizes concatenate to a prefix of what the hop says after its header section, with no byte lost, repeated or out of order. |
| Connect.Memo.Set | internal/connect/connect.go:99-109 | Records the phase and keeps a verdict it has unless it is given one. |
| Connect.Converse | internal/connect/connect.go:183-212 | A tunnel comes of exactly a complete 2xx answer before the context ends, a verdict of exactly a complete answer of another kind, with at most 4096 bytes of its body as the response's framing decodes it. |
| Connect.DialContext | internal/connect/connect.go:153-181 | A refused request does not dial again; otherwise error and memo name the phase the dial failed in, the memo is idle exactly when the tunnel is up, and a failed dial leaves no open connection. |
| Connect.Attempts | internal/connect/connect.go:153-181 | After a refusal every later attempt for the request fails with the same verdict, whatever the world would do. |
| Connect.DialAndRead | internal/connect/connect.go:153-227 | From dial to last read: the bytes read are a prefix of what follows the header section. |
| Connect.DialWritten | internal/connect/connect.go:153-227 | A hop that says such a header section and then `rest`: there is a tunnel exactly if dial, handshake, writing and parsing succeed, the status is a 2xx and the context lasts; what is read is a prefix of `rest`, and all of it if enough is read. |
| Connect.DialRefused | internal/connect/connect.go:193-203 | With any other status the verdict holds it and the first 4096 bytes, at most, of the body. |
| Connect.DialUnfinished | internal/connect/connect.go:193-198 | Lines without the blank one are no answer: no tunnel and no verdict. |
| Routes.MatchPath | internal/metrics/routes.go:82-106 | The loop accepts exactly the paths whose segments fit the pattern up to its star or to the end of both, and returns the captured values. |
| Routes.Matcher.Match | internal/metrics/routes.go:61-73 | Returns the first route whose host and path fit, or nothing if none does; its labels are among the captures. |
| Routes.HostIsServed | internal/metrics/routes.go:75-80 | A literal host is served itself only; a wildcard exactly the hosts that end in a dot and its suffix. |
| Routes.RouteServes | internal/metrics/routes.go:61-73 | A configured host is matched whatever the case of either side. |
| Routes.RouteIsServed | internal/metrics/routes.go:28-106 | From configured text to labels: a route fits every path that its own pattern writes, on its own host, and gives each parameter it captures its value and no other label. |
| Routes.SegmentIsRead | internal/metrics/routes.go:82-106 | A segment with a colon takes exactly its prefix and something more, and gives that its name; any other takes itself; an empty one fits nothing. |
| Routes.LeadingSlashIsOptional | internal/metrics/routes.go:31-32 | A path has the same segments with and without its leading slash. |
| Routes.NewMatcher | internal/metrics/routes.go:28-57 | Accepts exactly the lists with stars only at the end and captures that are parameters; the captures are sorted and each there once. |
| Routes.RouteIsAccepted | internal/metrics/routes.go:31-49 | What is accepted, by the text: a star is the last segment or none, and each capture stands behind the first colon of some segment. |
| Routes.LessIs | internal/metrics/routes.go:56-57 | Captures are sorted by their first difference, a front before what it is the front of. |
| Routes.RenderedPathMatches | internal/metrics/routes.go:82-106 | Filling a pattern of non-empty segments with non-empty slash-free values, and any tail for its star, gives a path it matches with exactly the captured values. |
| Routes.MatchedPathIsRendered | internal/metrics/routes.go:82-106 | Conversely, a path that a pattern with distinct names matches is a rendering of it. |
| Routes.EmptySegmentMatchesNothing | internal/metrics/routes.go:88-90 | A pattern with an empty segment before its star matches no path at all. |
| Routes.LabelsAreCaptured | internal/metrics/routes.go:82-106 | The labels of a match are captures of its route. |

## Left out

- surf, uTLS, goproxy and most of `internal/impersonate/build.go`: calls into libraries; a build is a fresh client or an error.
- `internal/proxy/encoding.go`: decoding of bodies belongs to codec libraries.
- The schema library and the parsers of cookies and URLs: validity, readings and sites are parameters (`Rules`, `Readings`).
- `internal/config`, `cmd/tip`, `internal/metrics/metrics.go`: wiring and counters; of the configuration only `Max >= 1` is used.
- Certificates, and the hashing of the profile catalogue: of a listed profile only that its pair is supported is used.
- Timeouts, contexts, TLS handshakes, sockets and log output: outcomes that may go either way, or inputs.
- `directive.Strip`, `upgrade`, `relay` and `NewRedactor`: filters and rewrites of one map or URL each. `relay` copies the hop's own headers as they are, so nothing is said of credentials in those.
- `Verdict.Line`: the first line of a hop's body is an input of the diagnosis.
- Connect.Converse: how a response's framing (a length, chunks, or the end of the connection) delimits its body is an input, a function of the bytes after the header section.
- `readWriteBody`: passing a writer through to an upgraded connection.
- Concurrent first picks in one HTTP/2 tunnel: `pick` and `remember` are separate lock sections, so the same lists may get two identities there.
- Exchange.Server.Drain: what finishes during each wait and the tick at which the context is over are inputs; the polling and the expiry that run beside requests are steps of the lifecycle.
- A panic in a build, which would leave its flight pending.
- Invalid UTF-8: a char is a Unicode scalar value, so a text is always valid UTF-8.
- Identity.TunnelIsSticky: says nothing of requests that run beside each other in one tunnel, for the reason above.
- Cache.Cache.Get: takes a Get as uninterrupted, except that a flight it joins lands meanwhile; what other threads do between its lock sections is in the lifecycle's theorems, where a client is known by its key.
- Cache.GetAll: takes clock readings as strictly increasing, because the source breaks ties by map order.
- Exchange.OnRequest: nothing runs beside it but the build of a flight it joins; the interleavings with Drain and with other Gets are in the lifecycle only.
- Exchange.Serve: the same, for all of the request; what is sent of the request's body meanwhile is an input.
- LifecycleWaiters.WaiterGetsClosedExactly: with the split Release, says nothing of runs in which someone acquires a client inside the gap of another Release of it, because there a client may be closed while it is held.
- LifecycleProgress.NeverWedged: says that some step is possible, not that a scheduler takes it; clock readings are assumed to fall short of the largest 64-bit integer.
- LifecycleTheorems.HolderSafety: does not hold of every run of the split Release, by the trace above.
- LifecycleTheorems.NoCloseIsLost: the two atomic writes of `acquire` are one step, since both happen under the lock and nothing reads them apart.
- SpecKey.KeyInjective: numbers are unbounded where the source has 32 and 64 bits, and a nil and an empty `Order` are one value.
- Configuration.NewPolicy: the canonical form of a header name is lower case here, and lower-casing is that of ASCII.
- Routes.NewMatcher: lower-casing of hosts is that of ASCII.
- Redaction.RedactionIsComplete: the regular expression is an explicit leftmost greedy search, which folds case as the source's flag does.
