/** The client cache, the reference-counted clients, the request lifecycle and the drain, as one transition system.
    A step is one lock section, or one atomic operation outside the lock; a lock section that retires clients is
    several steps, because Release runs beside it without the lock. Threads, clients and flights (the source's
    `pending` records) are numbered in the order they appear. */
module Lifecycle {
  import opened Options

  type Key = string
  type ClientId = nat
  type FlightId = nat

  /** The granularity of the two places where the source takes two atomic steps, and the cache capacity. */
  datatype Config = Config(max: nat, splitRelease: bool, splitAdmission: bool)

  datatype Client = Client(key: Key, inflight: int, lastUsed: int, retired: bool, closed: bool, closes: nat)

  datatype Flight = Flight(key: Key, landed: bool, client: Option<ClientId>)

  datatype Source = Hit | Build | Wait

  /** A client in a thread's hands: how it came by it, and whether it was still open at that moment. */
  datatype Hold = Hold(client: ClientId, source: Source, open: bool)

  /** What a lock holder is in the middle of: `insert`, `Sweep` or `Cache.Close`. */
  datatype Loop =
    | Insert(flight: FlightId, added: ClientId, evicted: nat)
    | Sweep(cutoff: int, todo: set<Key>, swept: nat)
    | CloseAll(ok: bool, todo: set<Key>)

  datatype Pc =
    | Entering                                          // saw `draining` false, not yet counted
    | Admitted                                          // counted in `active`
    | Resolving                                         // start observed; parsing and resolving the request
    | Asking                                            // in Get, before the first lock section
    | HitSeen(hold: Hold)                               // unlocked after a hit
    | JoinSeen(flight: FlightId)                        // unlocked after finding a flight
    | MissSeen(flight: FlightId)                        // unlocked after registering a flight
    | Waiting(flight: FlightId)
    | Making(flight: FlightId)                          // building, outside the lock
    | Built(flight: FlightId, built: Option<ClientId>)  // build returned, before the second lock section
    | InLoop(loop: Loop)                                // holds the lock, at the head of a loop
    | Retiring(victim: ClientId, loop: Loop)            // holds the lock, about to store `retired`
    | Checking(victim: ClientId, loop: Loop)            // holds the lock, about to load `inflight`
    | ClosingVictim(victim: ClientId, loop: Loop)             // holds the lock, about to close the victim
    | Landing(flight: FlightId, got: Option<Hold>, evicted: nat)  // unlocked, about to close `done`
    | BuiltSeen(hold: Hold, evicted: nat)               // about to observe ClientBuilt
    | EvictSeen(hold: Hold, evicted: nat)               // observing evictions
    | Holding(hold: Hold)                               // Get returned
    | Streaming(hold: Hold)                             // response handed back, body not closed
    | Releasing(hold: Hold)                             // about to decrement `inflight`
    | LastLook(client: ClientId)                        // brought `inflight` to zero, about to load `retired`
    | LastClose(client: ClientId)                       // saw `retired`, about to close
    | Finishing                                         // about to observe the finish
    | Leaving                                           // about to decrement `active`
    | Gone
    | Swept(left: nat)                                  // unlocked, observing a sweep's evictions
    | Draining
    | Drained(ok: bool)                                 // Drain returned; ok means nil
    | Shutdown(ok: bool)                                // Cache.Close returned

  /** What one request did so far. */
  datatype Log = Log(starts: nat, finishes: nat, acquires: nat, releases: nat)

  datatype Thread = Thread(pc: Pc, key: Key, log: Log)

  /** `gets`, `failed` and `silent` are history: Gets begun, builds that failed, clients removed by Cache.Close. */
  datatype Counts = Counts(hits: int, misses: int, builds: int, evictions: int, gets: int, failed: int, silent: int)

  datatype State = State(
    threads: seq<Thread>, clients: seq<Client>, flights: seq<Flight>,
    entries: map<Key, ClientId>, pending: map<Key, FlightId>,
    lock: Option<nat>, active: int, draining: bool, counts: Counts)

  // The actions, by what they touch. Those up to Progress move one thread on and report to the observer; the others
  // change the cache, a flight, a client or the lock.

  /** A thread that begins: an arriving request, a sweep, a drain. */
  datatype Beginning = CheckDraining | Admit | StartSweep(cutoff: int) | StartDrain

  /** onRequest up to Get. */
  datatype Arrival = Enter | ObserveStart | Ask(key: Key)

  /** A request turned away, and `finish`. */
  datatype Departure = Reject | ObserveFinish | Leave

  datatype Notice = ObserveHit | ObserveJoin | ObserveMiss

  datatype Report = ObserveBuilt | ObserveEvicted | ObserveSwept

  datatype Outcome = Fail | BuildFail | HandOver

  /** Steps that go on by what they read. */
  datatype Choice = LookupJoin | CheckIdle | LoadRetired

  datatype Progress = RoundTrip(ok: bool) | CloseBody | Poll | Expire

  /** The hit in Get's first lock section, and the lock section of `share`. */
  datatype Taking = LookupHit(now: int) | Share(now: int)

  /** The miss in Get's first lock section, and the start of its second. */
  datatype Booking = LookupMiss | Return

  /** A build that succeeds, and `close(p.done)`. */
  datatype Making = BuildOk | Land

  /** The loop of `insert`, inside the builder's lock section. */
  datatype Inserting = Evict(victim: Key) | Store(now: int)

  /** The loop bodies of Sweep and of Cache.Close, inside their lock sections. */
  datatype Clearing = Visit(key: Key) | Drop(key: Key)

  /** The atomic operations of `retire`, and the closing half of Release. */
  datatype Closing = Retire | CloseVictim | CloseLast

  /** The ends of Sweep and of Cache.Close, and the start of the latter. */
  datatype Locking = EndSweep | StartClose | EndClose

  datatype Action =
    | Begins(begins: Beginning) | Arrives(arrives: Arrival) | Departs(departs: Departure) | Notes(notes: Notice)
    | Tells(tells: Report) | Ends(ends: Outcome) | Chooses(chooses: Choice) | Goes(goes: Progress)
    | Takes(takes: Taking) | Books(books: Booking)
    | Makes(makes: Making) | Inserts(inserts: Inserting) | Clears(clears: Clearing) | Closes(closes: Closing)
    | Turns(turns: Locking) | Release

  /** Action `what` by thread `who`; an action that starts a thread is numbered with the next free thread. */
  datatype Event = Event(who: nat, what: Action)

  function Init(): State {
    State([], [], [], map[], map[], None, 0, false, Counts(0, 0, 0, 0, 0, 0, 0))
  }

  /** The oldest entry: `leastRecent` returns some entry whose lastUsed no other entry's is below. */
  predicate Oldest(s: State, k: Key)
    requires forall key :: key in s.entries ==> s.entries[key] < |s.clients|
  {
    k in s.entries &&
    forall key :: key in s.entries ==> s.clients[s.entries[k]].lastUsed <= s.clients[s.entries[key]].lastUsed
  }

  predicate InRange(s: State) {
    forall k :: k in s.entries ==> s.entries[k] < |s.clients|
  }

  /** The ids a program counter mentions exist. */
  predicate PcInRange(s: State, pc: Pc) {
    (HoldOf(pc).Some? ==> HoldOf(pc).value.client < |s.clients|) &&
    (FlightOf(pc).Some? ==> FlightOf(pc).value < |s.flights|) &&
    (IsInserting(pc) ==> pc.loop.added < |s.clients|) &&
    (pc.Built? && pc.built.Some? ==> pc.built.value < |s.clients|) &&
    (pc.Retiring? || pc.Checking? || pc.ClosingVictim? ==> pc.victim < |s.clients|) &&
    (pc.LastLook? || pc.LastClose? ==> pc.client < |s.clients|)
  }

  predicate MapsInRange(s: State) {
    InRange(s) &&
    (forall k :: k in s.pending ==> s.pending[k] < |s.flights|) &&
    forall f :: 0 <= f < |s.flights| && s.flights[f].client.Some? ==> s.flights[f].client.value < |s.clients|
  }

  /** Every id that thread t's next step can use exists. */
  predicate Within(s: State, t: nat) {
    t < |s.threads| && PcInRange(s, s.threads[t].pc) &&
    var pc, k := s.threads[t].pc, s.threads[t].key;
    (k in s.entries ==> s.entries[k] < |s.clients|) && (k in s.pending ==> s.pending[k] < |s.flights|) &&
    (pc.Waiting? && s.flights[pc.flight].client.Some? ==> s.flights[pc.flight].client.value < |s.clients|)
  }

  predicate WellTyped(s: State) {
    MapsInRange(s) && forall t :: 0 <= t < |s.threads| ==> PcInRange(s, s.threads[t].pc)
  }

  /** The thread holds the lock. */
  predicate Locked(pc: Pc) { pc.InLoop? || pc.Retiring? || pc.Checking? || pc.ClosingVictim? }

  predicate IsInserting(pc: Pc) { Locked(pc) && pc.loop.Insert? }

  function HoldOf(pc: Pc): Option<Hold> {
    if pc.Landing? then pc.got
    else if pc.HitSeen? || pc.BuiltSeen? || pc.EvictSeen? || pc.Holding? || pc.Streaming? || pc.Releasing? then
      Some(pc.hold)
    else None
  }

  function FlightOf(pc: Pc): Option<FlightId> {
    if pc.JoinSeen? || pc.Waiting? || pc.MissSeen? || pc.Making? || pc.Built? || pc.Landing? then Some(pc.flight)
    else if IsInserting(pc) then Some(pc.loop.flight)
    else None
  }

  predicate Unlocked(s: State) { s.lock == None }

  predicate CanBegin(cfg: Config, s: State, a: Beginning) {
    match a
    case CheckDraining => cfg.splitAdmission && !s.draining
    case Admit => !cfg.splitAdmission && !s.draining
    case StartSweep(_) => Unlocked(s)
    case StartDrain => true
  }

  predicate CanArrive(pc: Pc, a: Arrival) {
    match a
    case Enter => pc.Entering?
    case ObserveStart => pc.Admitted?
    case Ask(_) => pc.Resolving?
  }

  predicate CanDepart(pc: Pc, a: Departure) {
    match a
    case Reject => pc.Resolving?
    case ObserveFinish => pc.Finishing?
    case Leave => pc.Leaving?
  }

  predicate CanNote(pc: Pc, a: Notice) {
    match a
    case ObserveHit => pc.HitSeen?
    case ObserveJoin => pc.JoinSeen?
    case ObserveMiss => pc.MissSeen?
  }

  predicate CanReport(pc: Pc, a: Report) {
    match a
    case ObserveBuilt => pc.BuiltSeen?
    case ObserveEvicted => pc.EvictSeen? && pc.evicted > 0
    case ObserveSwept => pc.Swept? && pc.left > 0
  }

  predicate CanEnd(s: State, pc: Pc, a: Outcome)
    requires PcInRange(s, pc)
  {
    match a
    case Fail => pc.Waiting? && s.flights[pc.flight].landed && s.flights[pc.flight].client.None?
    case BuildFail => pc.Making?
    case HandOver => pc.EvictSeen? && pc.evicted == 0
  }

  predicate CanChoose(s: State, t: nat, a: Choice)
    requires Within(s, t)
  {
    var pc, k := s.threads[t].pc, s.threads[t].key;
    match a
    case LookupJoin => pc.Asking? && Unlocked(s) && k !in s.entries && k in s.pending
    case CheckIdle => pc.Checking?
    case LoadRetired => pc.LastLook?
  }

  predicate CanGo(s: State, pc: Pc, a: Progress) {
    match a
    case RoundTrip(_) => pc.Holding?
    case CloseBody => pc.Streaming?
    case Poll => pc.Draining? && s.active <= 0
    case Expire => pc.Draining?
  }

  predicate CanTake(s: State, t: nat, a: Taking)
    requires Within(s, t)
  {
    var pc, k := s.threads[t].pc, s.threads[t].key;
    Unlocked(s) &&
    match a
    case LookupHit(_) => pc.Asking? && k in s.entries
    case Share(_) => pc.Waiting? && s.flights[pc.flight].landed && s.flights[pc.flight].client.Some?
  }

  predicate CanBook(s: State, t: nat, a: Booking)
    requires Within(s, t)
  {
    var pc, k := s.threads[t].pc, s.threads[t].key;
    Unlocked(s) &&
    match a
    case LookupMiss => pc.Asking? && k !in s.entries && k !in s.pending
    case Return => pc.Built?
  }

  predicate CanMake(pc: Pc, a: Making) {
    match a
    case BuildOk => pc.Making?
    case Land => pc.Landing?
  }

  predicate CanInsert(cfg: Config, s: State, pc: Pc, a: Inserting)
    requires InRange(s)
  {
    pc.InLoop? && pc.loop.Insert? &&
    match a
    case Evict(v) => |s.entries| >= cfg.max && Oldest(s, v)
    case Store(_) => |s.entries| < cfg.max
  }

  predicate CanClear(s: State, pc: Pc, a: Clearing)
    requires InRange(s)
  {
    pc.InLoop? && a.key in s.entries &&
    match a
    case Visit(key) => pc.loop.Sweep? && key in pc.loop.todo
    case Drop(key) => pc.loop.CloseAll? && key in pc.loop.todo
  }

  predicate CanClose(pc: Pc, a: Closing) {
    match a
    case Retire => pc.Retiring?
    case CloseVictim => pc.ClosingVictim?
    case CloseLast => pc.LastClose?
  }

  predicate CanTurn(s: State, pc: Pc, a: Locking) {
    match a
    case EndSweep => pc.InLoop? && pc.loop.Sweep? && pc.loop.todo == {}
    case StartClose => pc.Drained? && Unlocked(s)
    case EndClose => pc.InLoop? && pc.loop.CloseAll? && pc.loop.todo == {}
  }

  /** When thread e.who can take action e.what. */
  predicate Enabled(cfg: Config, s: State, e: Event)
    requires WellTyped(s)
  {
    if e.what.Begins? then e.who == |s.threads| && CanBegin(cfg, s, e.what.begins)
    else
      e.who < |s.threads| &&
      var pc := s.threads[e.who].pc;
      match e.what
      case Begins(_) => false
      case Arrives(a) => CanArrive(pc, a)
      case Departs(a) => CanDepart(pc, a)
      case Notes(a) => CanNote(pc, a)
      case Tells(a) => CanReport(pc, a)
      case Ends(a) => CanEnd(s, pc, a)
      case Chooses(a) => CanChoose(s, e.who, a)
      case Goes(a) => CanGo(s, pc, a)
      case Takes(a) => CanTake(s, e.who, a)
      case Books(a) => CanBook(s, e.who, a)
      case Makes(a) => CanMake(pc, a)
      case Inserts(a) => CanInsert(cfg, s, pc, a)
      case Clears(a) => CanClear(s, pc, a)
      case Closes(a) => CanClose(pc, a)
      case Turns(a) => CanTurn(s, pc, a)
      case Release => pc.Releasing?
  }

  function Goto(s: State, t: nat, pc: Pc): State
    requires t < |s.threads|
  {
    s.(threads := s.threads[t := s.threads[t].(pc := pc)])
  }

  function Spawn(s: State, pc: Pc): State {
    s.(threads := s.threads + [Thread(pc, "", Log(0, 0, 0, 0))])
  }

  /** Client.acquire: count the holder and stamp the client. */
  function Acquired(cl: Client, now: int): Client { cl.(inflight := cl.inflight + 1, lastUsed := now) }

  /** Client.Close: sync.Once lets one caller through. */
  function Shut(cl: Client): Client {
    if cl.closed then cl else cl.(closed := true, closes := cl.closes + 1)
  }

  function Write(s: State, c: ClientId, x: Client): State
    requires c < |s.clients|
  {
    s.(clients := s.clients[c := x])
  }

  /** Thread t goes on to pc with one more acquisition in its log. */
  function Acquire(s: State, t: nat, c: ClientId, now: int, pc: Pc): State
    requires t < |s.threads| && c < |s.clients|
  {
    var th := s.threads[t];
    var log := th.log.(acquires := th.log.acquires + 1);
    Write(s, c, Acquired(s.clients[c], now)).(threads := s.threads[t := th.(pc := pc, log := log)])
  }

  /** `evict`: take the entry out of the cache and go on to retire its client. */
  function Remove(s: State, t: nat, key: Key, l: Loop): State
    requires t < |s.threads| && key in s.entries
  {
    Goto(s.(entries := s.entries - {key}), t, Retiring(s.entries[key], l))
  }

  function Begin(s: State, a: Beginning): State {
    match a
    case CheckDraining => Spawn(s, Entering)
    case Admit => Spawn(s.(active := s.active + 1), Admitted)
    case StartSweep(cutoff) => Spawn(s.(lock := Some(|s.threads|)), InLoop(Sweep(cutoff, s.entries.Keys, 0)))
    case StartDrain => Spawn(s.(draining := true), Draining)
  }

  function Arrive(s: State, t: nat, a: Arrival): State
    requires t < |s.threads|
  {
    var th := s.threads[t];
    match a
    case Enter => Goto(s.(active := s.active + 1), t, Admitted)
    case ObserveStart => s.(threads := s.threads[t := th.(pc := Resolving,
                                                          log := th.log.(starts := th.log.starts + 1))])
    case Ask(key) => s.(threads := s.threads[t := th.(pc := Asking, key := key)],
                        counts := s.counts.(gets := s.counts.gets + 1))
  }

  function Depart(s: State, t: nat, a: Departure): State
    requires t < |s.threads|
  {
    var th := s.threads[t];
    match a
    case Reject => Goto(s, t, Finishing)
    case ObserveFinish => s.(threads := s.threads[t := th.(pc := Leaving,
                                                           log := th.log.(finishes := th.log.finishes + 1))])
    case Leave => Goto(s.(active := s.active - 1), t, Gone)
  }

  function Note(s: State, t: nat, a: Notice): State
    requires t < |s.threads| && CanNote(s.threads[t].pc, a)
  {
    var pc, n := s.threads[t].pc, s.counts;
    match a
    case ObserveHit => Goto(s.(counts := n.(hits := n.hits + 1)), t, Holding(pc.hold))
    case ObserveJoin => Goto(s.(counts := n.(hits := n.hits + 1)), t, Waiting(pc.flight))
    case ObserveMiss => Goto(s.(counts := n.(misses := n.misses + 1)), t, Pc.Making(pc.flight))
  }

  function Tell(s: State, t: nat, a: Report): State
    requires t < |s.threads| && CanReport(s.threads[t].pc, a)
  {
    var pc, n := s.threads[t].pc, s.counts;
    match a
    case ObserveBuilt => Goto(s.(counts := n.(builds := n.builds + 1)), t, EvictSeen(pc.hold, pc.evicted))
    case ObserveEvicted => Goto(s.(counts := n.(evictions := n.evictions + 1)), t, EvictSeen(pc.hold, pc.evicted - 1))
    case ObserveSwept => Goto(s.(counts := n.(evictions := n.evictions + 1)), t, Swept(pc.left - 1))
  }

  function End(s: State, t: nat, a: Outcome): State
    requires Within(s, t) && CanEnd(s, s.threads[t].pc, a)
  {
    var pc, n := s.threads[t].pc, s.counts;
    match a
    case Fail => Goto(s, t, Finishing)
    case BuildFail => Goto(s.(counts := n.(failed := n.failed + 1)), t, Built(pc.flight, None))
    case HandOver => Goto(s, t, Holding(pc.hold))
  }

  function Choose(s: State, t: nat, a: Choice): State
    requires Within(s, t) && CanChoose(s, t, a)
  {
    var pc := s.threads[t].pc;
    match a
    case LookupJoin => Goto(s, t, JoinSeen(s.pending[s.threads[t].key]))
    case CheckIdle =>
      Goto(s, t, if s.clients[pc.victim].inflight == 0 then ClosingVictim(pc.victim, pc.loop) else InLoop(pc.loop))
    case LoadRetired => Goto(s, t, if s.clients[pc.client].retired then LastClose(pc.client) else Finishing)
  }

  function Go(s: State, t: nat, a: Progress): State
    requires t < |s.threads| && CanGo(s, s.threads[t].pc, a)
  {
    var pc := s.threads[t].pc;
    match a
    case RoundTrip(ok) => Goto(s, t, if ok then Streaming(pc.hold) else Releasing(pc.hold))
    case CloseBody => Goto(s, t, Releasing(pc.hold))
    case Poll => Goto(s, t, Drained(true))
    case Expire => Goto(s, t, Drained(false))
  }

  function Take(s: State, t: nat, a: Taking): State
    requires Within(s, t) && CanTake(s, t, a)
  {
    var pc, k := s.threads[t].pc, s.threads[t].key;
    match a
    case LookupHit(now) =>
      var c := s.entries[k];
      Acquire(s, t, c, now, HitSeen(Hold(c, Hit, !s.clients[c].closed)))
    case Share(now) =>
      var c := s.flights[pc.flight].client.value;
      Acquire(s, t, c, now, Holding(Hold(c, Wait, !s.clients[c].closed)))
  }

  function Book(s: State, t: nat, a: Booking): State
    requires Within(s, t) && CanBook(s, t, a)
  {
    var pc, k := s.threads[t].pc, s.threads[t].key;
    match a
    case LookupMiss =>
      Goto(s.(flights := s.flights + [Flight(k, false, None)], pending := s.pending[k := |s.flights|]),
           t, MissSeen(|s.flights|))
    case Return =>
      var s1 := s.(pending := s.pending - {k});
      if pc.built.None? then Goto(s1, t, Landing(pc.flight, None, 0))
      else Goto(s1.(lock := Some(t)), t, InLoop(Insert(pc.flight, pc.built.value, 0)))
  }

  function Make(s: State, t: nat, a: Making): State
    requires Within(s, t) && CanMake(s.threads[t].pc, a)
  {
    var pc, k := s.threads[t].pc, s.threads[t].key;
    match a
    case BuildOk =>
      Goto(s.(clients := s.clients + [Client(k, 0, 0, false, false, 0)]), t, Built(pc.flight, Some(|s.clients|)))
    case Land =>
      var c := if pc.got.Some? then Some(pc.got.value.client) else None;
      Goto(s.(flights := s.flights[pc.flight := s.flights[pc.flight].(landed := true, client := c)]), t,
           if pc.got.Some? then BuiltSeen(pc.got.value, pc.evicted) else Finishing)
  }

  function InsertStep(cfg: Config, s: State, t: nat, a: Inserting): State
    requires InRange(s) && Within(s, t) && CanInsert(cfg, s, s.threads[t].pc, a)
  {
    var l := s.threads[t].pc.loop;
    match a
    case Evict(v) => Remove(s, t, v, Insert(l.flight, l.added, l.evicted + 1))
    case Store(now) =>
      var c := l.added;
      Acquire(s, t, c, now, Landing(l.flight, Some(Hold(c, Build, !s.clients[c].closed)), l.evicted))
      .(entries := s.entries[s.threads[t].key := c], lock := None)
  }

  function ClearStep(s: State, t: nat, a: Clearing): State
    requires InRange(s) && Within(s, t) && CanClear(s, s.threads[t].pc, a)
  {
    var l := s.threads[t].pc.loop;
    match a
    case Visit(key) =>
      var cl := s.clients[s.entries[key]];
      if cl.lastUsed < l.cutoff && cl.inflight == 0 then Remove(s, t, key, Sweep(l.cutoff, l.todo - {key}, l.swept + 1))
      else Goto(s, t, InLoop(Sweep(l.cutoff, l.todo - {key}, l.swept)))
    case Drop(key) =>
      Remove(s.(counts := s.counts.(silent := s.counts.silent + 1)), t, key, CloseAll(l.ok, l.todo - {key}))
  }

  function CloseStep(s: State, t: nat, a: Closing): State
    requires Within(s, t) && CanClose(s.threads[t].pc, a)
  {
    var pc := s.threads[t].pc;
    match a
    case Retire => Goto(Write(s, pc.victim, s.clients[pc.victim].(retired := true)), t, Checking(pc.victim, pc.loop))
    case CloseVictim => Goto(Write(s, pc.victim, Shut(s.clients[pc.victim])), t, InLoop(pc.loop))
    case CloseLast => Goto(Write(s, pc.client, Shut(s.clients[pc.client])), t, Finishing)
  }

  /** The client Release leaves: after its decrement, or after all of it when it is one step. */
  function Released(cfg: Config, cl: Client): Client {
    var less := cl.(inflight := cl.inflight - 1);
    if less.inflight == 0 && less.retired && !cfg.splitRelease then Shut(less) else less
  }

  function ReleaseStep(cfg: Config, s: State, t: nat): State
    requires Within(s, t) && s.threads[t].pc.Releasing?
  {
    var th := s.threads[t];
    var c := th.pc.hold.client;
    var x := Released(cfg, s.clients[c]);
    var pc := if x.inflight == 0 && cfg.splitRelease then LastLook(c) else Finishing;
    Write(s, c, x).(threads := s.threads[t := th.(pc := pc, log := th.log.(releases := th.log.releases + 1))])
  }

  function Turn(s: State, t: nat, a: Locking): State
    requires t < |s.threads| && CanTurn(s, s.threads[t].pc, a)
  {
    var pc := s.threads[t].pc;
    match a
    case EndSweep => Goto(s.(lock := None), t, Swept(pc.loop.swept))
    case StartClose => Goto(s.(lock := Some(t)), t, InLoop(CloseAll(pc.ok, s.entries.Keys)))
    case EndClose => Goto(s.(lock := None), t, Shutdown(pc.loop.ok))
  }

  /** The state after event e. */
  function Apply(cfg: Config, s: State, e: Event): State
    requires WellTyped(s) && Enabled(cfg, s, e)
  {
    var t := e.who;
    match e.what
    case Begins(a) => Begin(s, a)
    case Arrives(a) => Arrive(s, t, a)
    case Departs(a) => Depart(s, t, a)
    case Notes(a) => Note(s, t, a)
    case Tells(a) => Tell(s, t, a)
    case Ends(a) => End(s, t, a)
    case Chooses(a) => Choose(s, t, a)
    case Goes(a) => Go(s, t, a)
    case Takes(a) => Take(s, t, a)
    case Books(a) => Book(s, t, a)
    case Makes(a) => Make(s, t, a)
    case Inserts(a) => InsertStep(cfg, s, t, a)
    case Clears(a) => ClearStep(s, t, a)
    case Closes(a) => CloseStep(s, t, a)
    case Turns(a) => Turn(s, t, a)
    case Release => ReleaseStep(cfg, s, t)
  }

  /** Running a sequence of events; None when one of them is not enabled. */
  function Exec(cfg: Config, s: State, run: seq<Event>): Option<State>
    decreases |run|
  {
    if run == [] then Some(s)
    else if WellTyped(s) && Enabled(cfg, s, run[0]) then Exec(cfg, Apply(cfg, s, run[0]), run[1..])
    else None
  }
}
