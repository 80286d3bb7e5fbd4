/** The invariant of the lifecycle, kept by every event at every granularity. */
module LifecycleInvariant {
  import opened Options
  import opened Lifecycle
  import opened LifecycleBooks

  /** The lock's holder is exactly the thread inside a locked loop. */
  ghost predicate LockOk(s: State) {
    (s.lock.Some? ==> s.lock.value < |s.threads|) &&
    forall t :: 0 <= t < |s.threads| ==> (Locked(s.threads[t].pc) <==> s.lock == Some(t))
  }

  /** Each cached client sits under its own key, unretired, with no flight for that key; the cache is within its
      bound. */
  ghost predicate CacheOk(cfg: Config, s: State)
    requires MapsInRange(s)
  {
    |s.entries| <= cfg.max &&
    (forall k :: k in s.pending ==> s.flights[s.pending[k]].key == k) &&
    forall k :: k in s.entries ==> s.clients[s.entries[k]].key == k && !s.clients[s.entries[k]].retired &&
                                   k !in s.pending
  }

  /** Only a retired client is closed, and once; a landed flight carries a client of its key. */
  ghost predicate ClientsOk(s: State)
    requires MapsInRange(s)
  {
    (forall c :: 0 <= c < |s.clients| ==>
                   (s.clients[c].closed ==> s.clients[c].retired) && s.clients[c].closes == One(s.clients[c].closed)) &&
    forall f :: 0 <= f < |s.flights| && s.flights[f].client.Some? ==>
                  s.clients[s.flights[f].client.value].key == s.flights[f].key
  }

  predicate NotStarted(pc: Pc) {
    pc.Entering? || pc.Admitted? || !(Requesting(pc) || pc.Gone?)
  }

  /** Where in its life a request has observed its start and finish, acquired a client and released it. */
  ghost predicate LogOk(th: Thread) {
    var pc, log := th.pc, th.log;
    log.starts == One(!NotStarted(pc)) && log.finishes == One(pc.Leaving? || pc.Gone?) &&
    log.acquires == log.releases + One(HoldOf(pc).Some?) && log.acquires <= 1 &&
    (log.acquires == 1 ==> HoldOf(pc).Some? || pc.LastLook? || pc.LastClose? || pc.Finishing? || pc.Leaving? ||
                           pc.Gone?)
  }

  ghost predicate LoopOk(s: State, key: Key, l: Loop)
    requires l.Insert? ==> l.added < |s.clients|
  {
    match l
    case Insert(_, c, _) => s.clients[c].key == key && key !in s.entries && key !in s.pending
    case Sweep(_, todo, _) => todo <= s.entries.Keys
    case CloseAll(_, todo) => todo == s.entries.Keys
  }

  ghost predicate ThreadOk(s: State, th: Thread)
    requires PcInRange(s, th.pc)
  {
    LogOk(th) && RefsOk(s, th)
  }

  /** The client, flight and loop a thread refers to are of its own key, and in the state its step expects. */
  ghost predicate RefsOk(s: State, th: Thread)
    requires PcInRange(s, th.pc)
  {
    var pc := th.pc;
    (HoldOf(pc).Some? ==> var h := HoldOf(pc).value;
     s.clients[h.client].key == th.key && (h.source != Wait ==> h.open)) &&
    (FlightOf(pc).Some? ==> s.flights[FlightOf(pc).value].key == th.key) &&
    (pc.Landing? && pc.got.None? ==> pc.evicted == 0) &&
    (Locked(pc) ==> LoopOk(s, th.key, pc.loop)) &&
    (pc.Built? && pc.built.Some? ==> s.clients[pc.built.value].key == th.key) &&
    (pc.Checking? || pc.ClosingVictim? ==> s.clients[pc.victim].retired) &&
    (pc.ClosingVictim? ==> s.clients[pc.victim].inflight == 0) &&
    (pc.LastClose? ==> s.clients[pc.client].retired)
  }

  ghost predicate ThreadsOk(s: State)
    requires WellTyped(s)
  {
    forall t :: 0 <= t < |s.threads| ==> ThreadOk(s, s.threads[t])
  }

  /** A retired idle client that is still open has a thread on its way to close it. */
  ghost predicate NoneForgotten(s: State) {
    forall c :: 0 <= c < |s.clients| && s.clients[c].retired && s.clients[c].inflight == 0 && !s.clients[c].closed ==>
                  Sum(Owing(c), s.threads) > 0
  }

  ghost predicate Shape(cfg: Config, s: State) {
    WellTyped(s) && LockOk(s) && CacheOk(cfg, s) && ClientsOk(s) && ThreadsOk(s)
  }

  ghost predicate Inv(cfg: Config, s: State) {
    Shape(cfg, s) && Balanced(s) && NoneForgotten(s)
  }

  /** Clients and flights are only added; keys stay, and a client once retired stays retired. */
  ghost predicate Grows(s: State, s': State) {
    |s.clients| <= |s'.clients| && |s.flights| <= |s'.flights| &&
    (forall c :: 0 <= c < |s.clients| ==>
                   s'.clients[c].key == s.clients[c].key && (s.clients[c].retired ==> s'.clients[c].retired)) &&
    forall f :: 0 <= f < |s.flights| ==> s'.flights[f].key == s.flights[f].key
  }

  /** A step keeps what holds of a thread that does not take it, if it leaves alone what a lock holder relies on. */
  lemma StandsStill(s: State, s': State, th: Thread)
    requires PcInRange(s, th.pc) && ThreadOk(s, th) && Grows(s, s')
    requires Locked(th.pc) ==> s'.entries == s.entries && s'.pending == s.pending
    requires th.pc.ClosingVictim? ==> s'.clients[th.pc.victim].inflight == 0
    ensures PcInRange(s', th.pc) && ThreadOk(s', th)
  {
  }

  lemma AllWithin(s: State, t: nat)
    requires WellTyped(s) && t < |s.threads|
    ensures Within(s, t)
  {
  }

  lemma InitInv(cfg: Config)
    ensures Inv(cfg, Init())
  {
  }

  /** What a step of thread t (or of a new one) may do to the state the other threads rely on. */
  ghost predicate Considerate(s: State, s': State, t: nat)
    requires WellTyped(s)
  {
    Grows(s, s') && MapsInRange(s') &&
    (s.lock.Some? && s.lock != Some(t) ==> s'.entries == s.entries && s'.pending == s.pending && s'.lock == s.lock) &&
    forall u :: 0 <= u < |s.threads| && u != t && s.threads[u].pc.ClosingVictim? ==>
                  s'.clients[s.threads[u].pc.victim].inflight == 0
  }

  lemma ThreadsKept(cfg: Config, s: State, s': State, t: nat)
    requires Shape(cfg, s) && (Moves(s, s', t) || (Appends(s, s') && t == |s.threads|)) && Considerate(s, s', t)
    requires PcInRange(s', s'.threads[t].pc) && ThreadOk(s', s'.threads[t])
    requires Locked(s'.threads[t].pc) <==> s'.lock == Some(t)
    requires s'.lock.Some? ==> s'.lock == Some(t) || s'.lock == s.lock
    ensures WellTyped(s') && LockOk(s') && ThreadsOk(s')
  {
    forall u | 0 <= u < |s'.threads|
      ensures PcInRange(s', s'.threads[u].pc) && ThreadOk(s', s'.threads[u]) &&
              (Locked(s'.threads[u].pc) <==> s'.lock == Some(u))
    {
      if u != t {
        assert s'.threads[u] == s.threads[u];
        StandsStill(s, s', s.threads[u]);
      }
    }
  }

  /** Every counter moves by as much as the stepping thread's stake. */
  ghost predicate Pays(s: State, s': State, p: Profile, p': Profile) {
    forall m: Measure :: m.Owing? || Counter(s', m) - Counter(s, m) == Stake(m, p') - Stake(m, p)
  }

  lemma BalanceKept(s: State, s': State, t: nat)
    requires Balanced(s) && Moves(s, s', t) && Pays(s, s', ProfileOf(s.threads[t]), ProfileOf(s'.threads[t]))
    ensures Balanced(s')
  {
    SumMoves(s, s', t);
  }

  /** Every client the step leaves retired, idle and open was so before, or the stepping thread now owes its close,
      and the stepping thread stops owing only a client that is not so. */
  ghost predicate Remembers(s: State, s': State, p: Profile, p': Profile) {
    |s.clients| <= |s'.clients| &&
    forall c :: 0 <= c < |s'.clients| && s'.clients[c].retired && s'.clients[c].inflight == 0 &&
                !s'.clients[c].closed ==>
                  p'.owed == Some(c) ||
                  (c < |s.clients| && s.clients[c].retired && s.clients[c].inflight == 0 && !s.clients[c].closed &&
                   p.owed != Some(c))
  }

  lemma MemoryKept(s: State, s': State, t: nat)
    requires NoneForgotten(s) && Moves(s, s', t) && Remembers(s, s', ProfileOf(s.threads[t]), ProfileOf(s'.threads[t]))
    ensures NoneForgotten(s')
  {
    SumMoves(s, s', t);
    forall c | 0 <= c < |s'.clients| && s'.clients[c].retired && s'.clients[c].inflight == 0 && !s'.clients[c].closed
      ensures Sum(Owing(c), s'.threads) > 0
    {
      SumFloor(Owing(c), s'.threads, t, t);
    }
  }

  /** What the books say about thread t's own business: its flight is still open, its client still unretired, and
      whatever it holds is counted. */
  ghost predicate Sure(s: State, t: nat)
    requires Within(s, t)
  {
    var pc := s.threads[t].pc;
    (pc.Built? ==> s.threads[t].key in s.pending) &&
    (pc.Landing? ==> !s.flights[pc.flight].landed) &&
    (IsInserting(pc) ==> !s.clients[pc.loop.added].retired && !Placed(s, pc.loop.added)) &&
    (pc.Retiring? ==> !s.clients[pc.victim].retired && !Placed(s, pc.victim) &&
                      !(IsInserting(pc) && pc.loop.added == pc.victim)) &&
    (HoldOf(pc).Some? ==> s.clients[HoldOf(pc).value.client].inflight >= 1)
  }

  lemma Surely(s: State, t: nat)
    requires Within(s, t) && Balanced(s)
    ensures Sure(s, t)
  {
    var pc := s.threads[t].pc;
    Floor(s, Builders(s.threads[t].key), t);
    if pc.Landing? {
      Floor(s, Airborne(pc.flight), t);
    }
    if IsInserting(pc) {
      Floor(s, Unplaced(pc.loop.added), t);
    }
    if pc.Retiring? {
      Floor(s, Unplaced(pc.victim), t);
    }
    if HoldOf(pc).Some? {
      Floor(s, Inflight(HoldOf(pc).value.client), t);
    }
  }

  /** In-flight counts are never negative. */
  lemma Counted(s: State, c: ClientId)
    requires Balanced(s) && c < |s.clients|
    ensures s.clients[c].inflight >= 0
  {
    assert s.clients[c].inflight == Counter(s, Inflight(c));
    if s.threads != [] {
      SumFloor(Inflight(c), s.threads, 0, 0);
    }
  }

  /** What the shape says about the key a thread asks for and the flight it waits for. */
  ghost predicate Known(s: State, t: nat)
    requires Within(s, t)
  {
    var th := s.threads[t];
    (th.key in s.entries ==> s.clients[s.entries[th.key]].key == th.key && !s.clients[s.entries[th.key]].closed) &&
    (th.key in s.pending ==> s.flights[s.pending[th.key]].key == th.key && th.key !in s.entries) &&
    (th.pc.Waiting? && s.flights[th.pc.flight].client.Some? ==>
       s.clients[s.flights[th.pc.flight].client.value].key == s.flights[th.pc.flight].key) &&
    (th.pc.Landing? && th.pc.got.Some? ==> s.clients[th.pc.got.value.client].key == s.flights[th.pc.flight].key)
  }

  /** Everything a step needs to know about its own thread. */
  ghost predicate Home(s: State, t: nat) {
    Within(s, t) && ThreadOk(s, s.threads[t]) && Known(s, t) && Sure(s, t)
  }

  ghost predicate OwnLog(s: State, t: nat) { t < |s.threads| && LogOk(s.threads[t]) }

  ghost predicate OwnRefs(s: State, t: nat) {
    t < |s.threads| && PcInRange(s, s.threads[t].pc) && RefsOk(s, s.threads[t])
  }

  ghost predicate Own(s: State, t: nat) { OwnLog(s, t) && OwnRefs(s, t) }

  ghost predicate Books(s: State, s': State, t: nat)
    requires t < |s.threads| && t < |s'.threads|
  {
    Pays(s, s', ProfileOf(s.threads[t]), ProfileOf(s'.threads[t])) &&
    Remembers(s, s', ProfileOf(s.threads[t]), ProfileOf(s'.threads[t]))
  }

  ghost predicate NonNegative(s: State) {
    forall c :: 0 <= c < |s.clients| ==> s.clients[c].inflight >= 0
  }

  ghost predicate Frame(cfg: Config, s: State, s': State, t: nat)
    requires WellTyped(s) && t < |s'.threads|
  {
    Considerate(s, s', t) && CacheOk(cfg, s') && ClientsOk(s') &&
    (Locked(s'.threads[t].pc) <==> s'.lock == Some(t)) && (s'.lock.Some? ==> s'.lock == Some(t) || s'.lock == s.lock)
  }

  lemma Keeps(cfg: Config, s: State, s': State, t: nat)
    requires Inv(cfg, s) && Moves(s, s', t) && Own(s', t) && Books(s, s', t) && Frame(cfg, s, s', t)
    ensures Inv(cfg, s')
  {
    ThreadsKept(cfg, s, s', t);
    BalanceKept(s, s', t);
    MemoryKept(s, s', t);
  }

  lemma AtHome(cfg: Config, s: State, t: nat)
    requires Inv(cfg, s) && t < |s.threads|
    ensures Home(s, t) && NonNegative(s)
  {
    Surely(s, t);
    forall c | 0 <= c < |s.clients| ensures s.clients[c].inflight >= 0 {
      Counted(s, c);
    }
  }

  // Beginnings

  lemma BeginOwn(s: State, a: Beginning)
    ensures Appends(s, Begin(s, a)) && Own(Begin(s, a), |s.threads|)
  {
  }

  lemma BeginShape(cfg: Config, s: State, a: Beginning)
    requires Shape(cfg, s) && CanBegin(cfg, s, a)
    ensures Shape(cfg, Begin(s, a))
  {
    BeginOwn(s, a);
    ThreadsKept(cfg, s, Begin(s, a), |s.threads|);
  }

  lemma BeginProfile(s: State, a: Beginning)
    ensures |Begin(s, a).threads| == |s.threads| + 1
    ensures ProfileOf(Begin(s, a).threads[|s.threads|]) == NewProfile(a.Admit?)
  {
  }

  /** A new thread stands for nothing, but for the request it may be. */
  function NewProfile(requesting: bool): Profile {
    Profile(None, None, None, None, None, None, None, requesting, false, false, 0, false)
  }

  lemma BeginPays(s: State, a: Beginning)
    ensures |Begin(s, a).threads| == |s.threads| + 1
    ensures forall m: Measure :: m.Owing? ||
              Counter(Begin(s, a), m) - Counter(s, m) == Units(m, Begin(s, a).threads[|s.threads|])
    ensures ProfileOf(Begin(s, a).threads[|s.threads|]).owed == None
  {
    hide ProfileOf;
    BeginProfile(s, a);
  }

  lemma BeginBooks(s: State, a: Beginning)
    requires Balanced(s) && NoneForgotten(s)
    ensures Balanced(Begin(s, a)) && NoneForgotten(Begin(s, a))
  {
    BeginOwn(s, a);
    BeginPays(s, a);
    SumAppends(s, Begin(s, a));
  }

  // Steps that touch no client, flight, entry or lock

  ghost predicate Quiet(s: State, s': State, t: nat) {
    Moves(s, s', t) &&
    s'.clients == s.clients && s'.flights == s.flights && s'.entries == s.entries && s'.pending == s.pending &&
    s'.lock == s.lock &&
    (Locked(s'.threads[t].pc) <==> Locked(s.threads[t].pc))
  }

  /** The thread stands for the same things as before, save counts, which the observer's counters follow. */
  ghost predicate QuietBooks(s: State, s': State, p: Profile, p': Profile) {
    p'.hand == p.hand && (p'.half ==> p.half) && p'.held == p.held && p'.carried == p.carried &&
    p'.leaving == p.leaving && p'.builds == p.builds && p'.flies == p.flies &&
    (p.owed.Some? && p'.owed != p.owed ==> NotDue(s, p.owed)) &&
    Counter(s', Active) - Counter(s, Active) == One(p'.requesting) - One(p.requesting) &&
    Counter(s', Lookups) - Counter(s, Lookups) == One(p'.asking) - One(p.asking) &&
    Counter(s', Builds) - Counter(s, Builds) == One(p'.making) - One(p.making) &&
    Counter(s', Gauge) - Counter(s, Gauge) == p'.debt - p.debt
  }

  /** Nothing is due on the client: it is not retired, or somebody holds it. */
  ghost predicate NotDue(s: State, c: Option<ClientId>) {
    c.Some? && c.value < |s.clients| && !(s.clients[c.value].retired && s.clients[c.value].inflight == 0)
  }

  lemma QuietKeeps(cfg: Config, s: State, s': State, t: nat)
    requires Inv(cfg, s) && Quiet(s, s', t) && Own(s', t)
    requires QuietBooks(s, s', ProfileOf(s.threads[t]), ProfileOf(s'.threads[t]))
    ensures Inv(cfg, s')
  {
    QuietFrame(cfg, s, s', t);
    QuietPays(s, s', t, ProfileOf(s.threads[t]), ProfileOf(s'.threads[t]));
    Keeps(cfg, s, s', t);
  }

  lemma QuietFrame(cfg: Config, s: State, s': State, t: nat)
    requires Shape(cfg, s) && Quiet(s, s', t)
    ensures Frame(cfg, s, s', t)
  {
  }

  lemma QuietPays(s: State, s': State, t: nat, p: Profile, p': Profile)
    requires Quiet(s, s', t) && QuietBooks(s, s', p, p')
    ensures Pays(s, s', p, p') && Remembers(s, s', p, p')
  {
    QuietRemembers(s, s', t, p, p');
    forall m: Measure | !m.Owing? ensures Counter(s', m) - Counter(s, m) == Stake(m, p') - Stake(m, p) {
      match m
      case Active =>
      case Lookups =>
      case Builds =>
      case Gauge =>
      case _ =>
    }
  }

  lemma QuietRemembers(s: State, s': State, t: nat, p: Profile, p': Profile)
    requires Quiet(s, s', t) && QuietBooks(s, s', p, p')
    ensures Remembers(s, s', p, p')
  {
  }

  lemma ArrivalLog(s: State, t: nat, a: Arrival)
    requires Home(s, t) && CanArrive(s.threads[t].pc, a)
    ensures OwnLog(Arrive(s, t, a), t)
  {
    hide RefsOk;
    hide Known;
    hide Sure;
  }

  lemma ArrivalRefs(s: State, t: nat, a: Arrival)
    requires Home(s, t) && CanArrive(s.threads[t].pc, a)
    ensures OwnRefs(Arrive(s, t, a), t)
  {
    hide LogOk;
  }

  lemma ArrivalOwn(s: State, t: nat, a: Arrival)
    requires Home(s, t) && CanArrive(s.threads[t].pc, a)
    ensures Own(Arrive(s, t, a), t)
  {
    hide OwnLog;
    hide OwnRefs;
    ArrivalLog(s, t, a);
    ArrivalRefs(s, t, a);
  }

  lemma ArrivalMoves(s: State, t: nat, a: Arrival)
    requires t < |s.threads| && CanArrive(s.threads[t].pc, a)
    ensures Quiet(s, Arrive(s, t, a), t)
  {
  }

  lemma ArrivalProfile(s: State, t: nat, a: Arrival)
    requires t < |s.threads| && CanArrive(s.threads[t].pc, a)
    ensures |Arrive(s, t, a).threads| == |s.threads|
    ensures var p, p' := ProfileOf(s.threads[t]), ProfileOf(Arrive(s, t, a).threads[t]);
            p' == (match a
                   case Enter => p.(requesting := true)
                   case ObserveStart => p
                   case Ask(_) => p.(asking := true)) &&
            (a.Enter? ==> !p.requesting) && (a.Ask? ==> !p.asking)
  {
  }

  lemma ArrivalPays(s: State, t: nat, a: Arrival)
    requires t < |s.threads| && CanArrive(s.threads[t].pc, a)
    ensures |Arrive(s, t, a).threads| == |s.threads|
    ensures QuietBooks(s, Arrive(s, t, a), ProfileOf(s.threads[t]), ProfileOf(Arrive(s, t, a).threads[t]))
  {
    hide ProfileOf;
    ArrivalProfile(s, t, a);
  }

  lemma DepartureLog(s: State, t: nat, a: Departure)
    requires Home(s, t) && CanDepart(s.threads[t].pc, a)
    ensures OwnLog(Depart(s, t, a), t)
  {
    hide RefsOk;
    hide Known;
    hide Sure;
  }

  lemma DepartureRefs(s: State, t: nat, a: Departure)
    requires Home(s, t) && CanDepart(s.threads[t].pc, a)
    ensures OwnRefs(Depart(s, t, a), t)
  {
    hide LogOk;
  }

  lemma DepartureOwn(s: State, t: nat, a: Departure)
    requires Home(s, t) && CanDepart(s.threads[t].pc, a)
    ensures Own(Depart(s, t, a), t)
  {
    hide OwnLog;
    hide OwnRefs;
    DepartureLog(s, t, a);
    DepartureRefs(s, t, a);
  }

  lemma DepartureMoves(s: State, t: nat, a: Departure)
    requires t < |s.threads| && CanDepart(s.threads[t].pc, a)
    ensures Quiet(s, Depart(s, t, a), t)
  {
  }

  lemma DepartureProfile(s: State, t: nat, a: Departure)
    requires t < |s.threads| && CanDepart(s.threads[t].pc, a)
    ensures |Depart(s, t, a).threads| == |s.threads|
    ensures var p, p' := ProfileOf(s.threads[t]), ProfileOf(Depart(s, t, a).threads[t]);
            p' == (if a.Leave? then p.(requesting := false) else p) && (a.Leave? ==> p.requesting)
  {
  }

  lemma DeparturePays(s: State, t: nat, a: Departure)
    requires t < |s.threads| && CanDepart(s.threads[t].pc, a)
    ensures |Depart(s, t, a).threads| == |s.threads|
    ensures QuietBooks(s, Depart(s, t, a), ProfileOf(s.threads[t]), ProfileOf(Depart(s, t, a).threads[t]))
  {
    hide ProfileOf;
    DepartureProfile(s, t, a);
  }

  lemma NoticeLog(s: State, t: nat, a: Notice)
    requires Home(s, t) && CanNote(s.threads[t].pc, a)
    ensures OwnLog(Note(s, t, a), t)
  {
    hide RefsOk;
    hide Known;
    hide Sure;
  }

  lemma NoticeRefs(s: State, t: nat, a: Notice)
    requires Home(s, t) && CanNote(s.threads[t].pc, a)
    ensures OwnRefs(Note(s, t, a), t)
  {
    hide LogOk;
  }

  lemma NoticeOwn(s: State, t: nat, a: Notice)
    requires Home(s, t) && CanNote(s.threads[t].pc, a)
    ensures Own(Note(s, t, a), t)
  {
    hide OwnLog;
    hide OwnRefs;
    NoticeLog(s, t, a);
    NoticeRefs(s, t, a);
  }

  lemma NoticeMoves(s: State, t: nat, a: Notice)
    requires t < |s.threads| && CanNote(s.threads[t].pc, a)
    ensures Quiet(s, Note(s, t, a), t)
  {
  }

  lemma NoticeProfile(s: State, t: nat, a: Notice)
    requires t < |s.threads| && CanNote(s.threads[t].pc, a)
    ensures |Note(s, t, a).threads| == |s.threads|
    ensures var p, p' := ProfileOf(s.threads[t]), ProfileOf(Note(s, t, a).threads[t]);
            p' == p.(asking := false, making := a.ObserveMiss?) && p.asking && !p.making
  {
  }

  lemma NoticePays(s: State, t: nat, a: Notice)
    requires t < |s.threads| && CanNote(s.threads[t].pc, a)
    ensures |Note(s, t, a).threads| == |s.threads|
    ensures QuietBooks(s, Note(s, t, a), ProfileOf(s.threads[t]), ProfileOf(Note(s, t, a).threads[t]))
  {
    hide ProfileOf;
    NoticeProfile(s, t, a);
  }

  lemma ReportLog(s: State, t: nat, a: Report)
    requires Home(s, t) && CanReport(s.threads[t].pc, a)
    ensures OwnLog(Tell(s, t, a), t)
  {
    hide RefsOk;
    hide Known;
    hide Sure;
  }

  lemma ReportRefs(s: State, t: nat, a: Report)
    requires Home(s, t) && CanReport(s.threads[t].pc, a)
    ensures OwnRefs(Tell(s, t, a), t)
  {
    hide LogOk;
  }

  lemma ReportOwn(s: State, t: nat, a: Report)
    requires Home(s, t) && CanReport(s.threads[t].pc, a)
    ensures Own(Tell(s, t, a), t)
  {
    hide OwnLog;
    hide OwnRefs;
    ReportLog(s, t, a);
    ReportRefs(s, t, a);
  }

  lemma ReportMoves(s: State, t: nat, a: Report)
    requires t < |s.threads| && CanReport(s.threads[t].pc, a)
    ensures Quiet(s, Tell(s, t, a), t)
  {
  }

  lemma ReportProfile(s: State, t: nat, a: Report)
    requires t < |s.threads| && CanReport(s.threads[t].pc, a)
    ensures |Tell(s, t, a).threads| == |s.threads|
    ensures var p, p' := ProfileOf(s.threads[t]), ProfileOf(Tell(s, t, a).threads[t]);
            p' == p.(making := false, debt := p.debt + if a.ObserveBuilt? then -1 else 1) && p.making == a.ObserveBuilt?
  {
  }

  lemma ReportPays(s: State, t: nat, a: Report)
    requires t < |s.threads| && CanReport(s.threads[t].pc, a)
    ensures |Tell(s, t, a).threads| == |s.threads|
    ensures QuietBooks(s, Tell(s, t, a), ProfileOf(s.threads[t]), ProfileOf(Tell(s, t, a).threads[t]))
  {
    hide ProfileOf;
    ReportProfile(s, t, a);
  }

  lemma OutcomeLog(s: State, t: nat, a: Outcome)
    requires Home(s, t) && CanEnd(s, s.threads[t].pc, a)
    ensures OwnLog(End(s, t, a), t)
  {
    hide RefsOk;
    hide Known;
    hide Sure;
  }

  lemma OutcomeRefs(s: State, t: nat, a: Outcome)
    requires Home(s, t) && CanEnd(s, s.threads[t].pc, a)
    ensures OwnRefs(End(s, t, a), t)
  {
    hide LogOk;
  }

  lemma OutcomeOwn(s: State, t: nat, a: Outcome)
    requires Home(s, t) && CanEnd(s, s.threads[t].pc, a)
    ensures Own(End(s, t, a), t)
  {
    hide OwnLog;
    hide OwnRefs;
    OutcomeLog(s, t, a);
    OutcomeRefs(s, t, a);
  }

  lemma OutcomeMoves(s: State, t: nat, a: Outcome)
    requires Within(s, t) && CanEnd(s, s.threads[t].pc, a)
    ensures Quiet(s, End(s, t, a), t)
  {
  }

  lemma OutcomeProfile(s: State, t: nat, a: Outcome)
    requires Within(s, t) && CanEnd(s, s.threads[t].pc, a)
    ensures |End(s, t, a).threads| == |s.threads|
    ensures var p, p' := ProfileOf(s.threads[t]), ProfileOf(End(s, t, a).threads[t]);
            p' == p.(making := false) && p.making == a.BuildFail?
  {
  }

  lemma OutcomePays(s: State, t: nat, a: Outcome)
    requires Within(s, t) && CanEnd(s, s.threads[t].pc, a)
    ensures |End(s, t, a).threads| == |s.threads|
    ensures QuietBooks(s, End(s, t, a), ProfileOf(s.threads[t]), ProfileOf(End(s, t, a).threads[t]))
  {
    hide ProfileOf;
    OutcomeProfile(s, t, a);
  }

  lemma ChoiceLog(s: State, t: nat, a: Choice)
    requires Home(s, t) && CanChoose(s, t, a)
    ensures OwnLog(Choose(s, t, a), t)
  {
    hide RefsOk;
    hide Known;
    hide Sure;
  }

  lemma ChoiceRefs(s: State, t: nat, a: Choice)
    requires Home(s, t) && CanChoose(s, t, a)
    ensures OwnRefs(Choose(s, t, a), t)
  {
    hide LogOk;
  }

  lemma ChoiceOwn(s: State, t: nat, a: Choice)
    requires Home(s, t) && CanChoose(s, t, a)
    ensures Own(Choose(s, t, a), t)
  {
    hide OwnLog;
    hide OwnRefs;
    ChoiceLog(s, t, a);
    ChoiceRefs(s, t, a);
  }

  lemma ChoiceMoves(s: State, t: nat, a: Choice)
    requires Within(s, t) && CanChoose(s, t, a)
    ensures Quiet(s, Choose(s, t, a), t)
  {
  }

  lemma ChoiceProfile(s: State, t: nat, a: Choice)
    requires Within(s, t) && CanChoose(s, t, a)
    ensures |Choose(s, t, a).threads| == |s.threads|
    ensures var p, p' := ProfileOf(s.threads[t]), ProfileOf(Choose(s, t, a).threads[t]);
            p' == p.(owed := p'.owed, half := p'.half) && (p'.half ==> p.half) &&
            (p'.owed == p.owed || (p'.owed == None && NotDue(s, p.owed)))
  {
  }

  lemma ChoicePays(s: State, t: nat, a: Choice)
    requires Within(s, t) && CanChoose(s, t, a)
    ensures |Choose(s, t, a).threads| == |s.threads|
    ensures QuietBooks(s, Choose(s, t, a), ProfileOf(s.threads[t]), ProfileOf(Choose(s, t, a).threads[t]))
  {
    hide ProfileOf;
    ChoiceProfile(s, t, a);
  }

  lemma ProgressLog(s: State, t: nat, a: Progress)
    requires Home(s, t) && CanGo(s, s.threads[t].pc, a)
    ensures OwnLog(Go(s, t, a), t)
  {
    hide RefsOk;
    hide Known;
    hide Sure;
  }

  lemma ProgressRefs(s: State, t: nat, a: Progress)
    requires Home(s, t) && CanGo(s, s.threads[t].pc, a)
    ensures OwnRefs(Go(s, t, a), t)
  {
    hide LogOk;
  }

  lemma ProgressOwn(s: State, t: nat, a: Progress)
    requires Home(s, t) && CanGo(s, s.threads[t].pc, a)
    ensures Own(Go(s, t, a), t)
  {
    hide OwnLog;
    hide OwnRefs;
    ProgressLog(s, t, a);
    ProgressRefs(s, t, a);
  }

  lemma ProgressMoves(s: State, t: nat, a: Progress)
    requires t < |s.threads| && CanGo(s, s.threads[t].pc, a)
    ensures Quiet(s, Go(s, t, a), t)
  {
  }

  lemma ProgressProfile(s: State, t: nat, a: Progress)
    requires t < |s.threads| && CanGo(s, s.threads[t].pc, a)
    ensures |Go(s, t, a).threads| == |s.threads|
    ensures var p, p' := ProfileOf(s.threads[t]), ProfileOf(Go(s, t, a).threads[t]);
            p' == p
  {
  }

  lemma ProgressPays(s: State, t: nat, a: Progress)
    requires t < |s.threads| && CanGo(s, s.threads[t].pc, a)
    ensures |Go(s, t, a).threads| == |s.threads|
    ensures QuietBooks(s, Go(s, t, a), ProfileOf(s.threads[t]), ProfileOf(Go(s, t, a).threads[t]))
  {
    hide ProfileOf;
    ProgressProfile(s, t, a);
  }

  // Steps that write to one client

  /** Thread t replaces client c by x, and nothing else that is shared. */
  ghost predicate Writes(s: State, s': State, t: nat, c: ClientId, x: Client) {
    Moves(s, s', t) && c < |s.clients| && s'.clients == s.clients[c := x] &&
    s'.flights == s.flights && s'.entries == s.entries && s'.pending == s.pending && s'.lock == s.lock &&
    (Locked(s'.threads[t].pc) <==> Locked(s.threads[t].pc))
  }

  /** A client may be retired once it is out of the cache, closed once it is retired, and its count may change only
      where no lock holder has just read it as zero. */
  ghost predicate Allowed(s: State, c: ClientId, x: Client)
    requires c < |s.clients|
  {
    var was := s.clients[c];
    x.key == was.key && (was.retired ==> x.retired) && (x.retired ==> was.retired || !Placed(s, c)) &&
    (x.closed ==> x.retired) && x.closes == One(x.closed) &&
    (x.inflight == was.inflight || was.inflight >= 1 || s.lock == None)
  }

  lemma WriteFrame(cfg: Config, s: State, s': State, t: nat, c: ClientId, x: Client)
    requires Shape(cfg, s) && Writes(s, s', t, c, x) && Allowed(s, c, x)
    ensures Frame(cfg, s, s', t)
  {
    forall u | 0 <= u < |s.threads| && u != t && s.threads[u].pc.ClosingVictim?
      ensures s'.clients[s.threads[u].pc.victim].inflight == 0
    {
      assert PcInRange(s, s.threads[u].pc) && ThreadOk(s, s.threads[u]);
    }
  }

  /** The thread's stake moves as the client it writes to does. */
  ghost predicate WriteBooks(s: State, c: ClientId, x: Client, p: Profile, p': Profile)
    requires c < |s.clients|
  {
    x.key == s.clients[c].key &&
    p'.carried == p.carried && p'.builds == p.builds && p'.flies == p.flies && p'.debt == p.debt &&
    p'.requesting == p.requesting && p'.asking == p.asking && p'.making == p.making &&
    (p'.held == p.held || (p.held in {None, Some(c)} && p'.held in {None, Some(c)})) &&
    (p'.leaving == p.leaving || (p.leaving == Some(c) && p'.leaving == None && x.retired && !s.clients[c].retired)) &&
    x.inflight - s.clients[c].inflight == One(p'.held == Some(c)) - One(p.held == Some(c)) &&
    (x.retired == s.clients[c].retired || (p'.leaving != p.leaving && !Placed(s, c)))
  }

  lemma WritePays(s: State, s': State, t: nat, c: ClientId, x: Client, p: Profile, p': Profile)
    requires Writes(s, s', t, c, x) && WriteBooks(s, c, x, p, p') && s'.counts == s.counts && s'.active == s.active
    ensures Pays(s, s', p, p')
  {
    forall m: Measure | !m.Owing? ensures Counter(s', m) - Counter(s, m) == Stake(m, p') - Stake(m, p) {
      match m
      case Inflight(_) =>
      case Unplaced(_) =>
      case _ =>
    }
  }

  /** A write leaves no close forgotten: the client is not retired and idle, or closed, or the thread owes its close. */
  lemma WriteRemembers(s: State, s': State, t: nat, c: ClientId, x: Client, p: Profile, p': Profile)
    requires Writes(s, s', t, c, x)
    requires x.retired && x.inflight == 0 && !x.closed ==> p'.owed == Some(c)
    requires p'.owed == p.owed || p.owed in {None, Some(c)}
    ensures Remembers(s, s', p, p')
  {
  }

  lemma WriteKeeps(cfg: Config, s: State, s': State, t: nat, c: ClientId, x: Client)
    requires Inv(cfg, s) && Writes(s, s', t, c, x) && Allowed(s, c, x) && Own(s', t)
    requires s'.counts == s.counts && s'.active == s.active
    requires var p, p' := ProfileOf(s.threads[t]), ProfileOf(s'.threads[t]);
             WriteBooks(s, c, x, p, p') && (x.retired && x.inflight == 0 && !x.closed ==> p'.owed == Some(c)) &&
             (p'.owed == p.owed || p.owed in {None, Some(c)})
    ensures Inv(cfg, s')
  {
    var p, p' := ProfileOf(s.threads[t]), ProfileOf(s'.threads[t]);
    WriteFrame(cfg, s, s', t, c, x);
    WritePays(s, s', t, c, x, p, p');
    WriteRemembers(s, s', t, c, x, p, p');
    Keeps(cfg, s, s', t);
  }

  lemma TakingLog(s: State, t: nat, a: Taking)
    requires Home(s, t) && CanTake(s, t, a)
    ensures OwnLog(Take(s, t, a), t)
  {
    hide RefsOk;
    hide Known;
    hide Sure;
  }

  lemma TakingRefs(s: State, t: nat, a: Taking)
    requires Home(s, t) && CanTake(s, t, a)
    ensures OwnRefs(Take(s, t, a), t)
  {
    hide LogOk;
  }

  lemma TakingOwn(s: State, t: nat, a: Taking)
    requires Home(s, t) && CanTake(s, t, a)
    ensures Own(Take(s, t, a), t)
  {
    hide OwnLog;
    hide OwnRefs;
    TakingLog(s, t, a);
    TakingRefs(s, t, a);
  }

  /** The client a Get takes. */
  function Taken(s: State, t: nat, a: Taking): ClientId
    requires Within(s, t) && CanTake(s, t, a)
  {
    if a.LookupHit? then s.entries[s.threads[t].key] else s.flights[s.threads[t].pc.flight].client.value
  }

  lemma TakingWrites(s: State, t: nat, a: Taking)
    requires Home(s, t) && CanTake(s, t, a)
    ensures var c, s' := Taken(s, t, a), Take(s, t, a);
            c < |s.clients| && Writes(s, s', t, c, Acquired(s.clients[c], a.now)) && s'.counts == s.counts &&
            s'.active == s.active
  {
    hide ThreadOk;
    hide Known;
    hide Sure;
  }

  lemma TakingProfile(s: State, t: nat, a: Taking)
    requires Within(s, t) && CanTake(s, t, a)
    ensures |Take(s, t, a).threads| == |s.threads|
    ensures var p, p' := ProfileOf(s.threads[t]), ProfileOf(Take(s, t, a).threads[t]);
            p' == p.(hand := p'.hand, held := Some(Taken(s, t, a)), asking := p'.asking) && p'.asking == p.asking &&
            p.held == None && p.owed == None
  {
  }

  lemma TakingKeeps(cfg: Config, s: State, t: nat, a: Taking)
    requires Inv(cfg, s) && Within(s, t) && CanTake(s, t, a)
    ensures Inv(cfg, Take(s, t, a))
  {
    hide ProfileOf;
    hide Own;
    AtHome(cfg, s, t);
    var c := Taken(s, t, a);
    TakingWrites(s, t, a);
    TakingProfile(s, t, a);
    TakingOwn(s, t, a);
    WriteKeeps(cfg, s, Take(s, t, a), t, c, Acquired(s.clients[c], a.now));
  }

  lemma ClosingLog(s: State, t: nat, a: Closing)
    requires Home(s, t) && CanClose(s.threads[t].pc, a)
    ensures OwnLog(CloseStep(s, t, a), t)
  {
    hide RefsOk;
    hide Known;
    hide Sure;
  }

  lemma ClosingRefs(s: State, t: nat, a: Closing)
    requires Home(s, t) && CanClose(s.threads[t].pc, a)
    ensures OwnRefs(CloseStep(s, t, a), t)
  {
    hide LogOk;
  }

  lemma ClosingOwn(s: State, t: nat, a: Closing)
    requires Home(s, t) && CanClose(s.threads[t].pc, a)
    ensures Own(CloseStep(s, t, a), t)
  {
    hide OwnLog;
    hide OwnRefs;
    ClosingLog(s, t, a);
    ClosingRefs(s, t, a);
  }

  lemma RetireWrites(s: State, t: nat)
    requires Home(s, t) && s.threads[t].pc.Retiring?
    ensures var c, s' := s.threads[t].pc.victim, CloseStep(s, t, Retire);
            Writes(s, s', t, c, s.clients[c].(retired := true)) && s'.counts == s.counts && s'.active == s.active
    ensures var p, p' := ProfileOf(s.threads[t]), ProfileOf(CloseStep(s, t, Retire).threads[t]);
            p' == p.(leaving := None) && p.leaving == p.owed == Some(s.threads[t].pc.victim)
  {
  }

  /** The client that a closing step closes. */
  function Victim(pc: Pc): ClientId
    requires pc.ClosingVictim? || pc.LastClose?
  {
    if pc.LastClose? then pc.client else pc.victim
  }

  lemma ShutWrites(s: State, t: nat, a: Closing)
    requires Home(s, t) && CanClose(s.threads[t].pc, a) && !a.Retire?
    ensures var c, s' := Victim(s.threads[t].pc), CloseStep(s, t, a);
            c < |s.clients| && s.clients[c].retired &&
            Writes(s, s', t, c, Shut(s.clients[c])) && s'.counts == s.counts && s'.active == s.active
  {
    hide LogOk;
    hide Known;
    hide Sure;
  }

  lemma ShutProfile(s: State, t: nat, a: Closing)
    requires Within(s, t) && CanClose(s.threads[t].pc, a) && !a.Retire?
    ensures |CloseStep(s, t, a).threads| == |s.threads|
    ensures var p, p' := ProfileOf(s.threads[t]), ProfileOf(CloseStep(s, t, a).threads[t]);
            p' == p.(owed := None, half := false) && p.leaving == None && p.owed == Some(Victim(s.threads[t].pc))
  {
  }

  lemma ClosingKeeps(cfg: Config, s: State, t: nat, a: Closing)
    requires Inv(cfg, s) && Within(s, t) && CanClose(s.threads[t].pc, a)
    ensures Inv(cfg, CloseStep(s, t, a))
  {
    hide ProfileOf;
    hide Own;
    AtHome(cfg, s, t);
    ClosingOwn(s, t, a);
    if a.Retire? {
      RetireWrites(s, t);
      var c := s.threads[t].pc.victim;
      WriteKeeps(cfg, s, CloseStep(s, t, a), t, c, s.clients[c].(retired := true));
    } else {
      var c := Victim(s.threads[t].pc);
      ShutWrites(s, t, a);
      ShutProfile(s, t, a);
      WriteKeeps(cfg, s, CloseStep(s, t, a), t, c, Shut(s.clients[c]));
    }
  }

  lemma ReleaseOwn(cfg: Config, s: State, t: nat)
    requires Home(s, t) && s.threads[t].pc.Releasing?
    ensures Own(ReleaseStep(cfg, s, t), t)
  {
  }

  lemma ReleaseWrites(cfg: Config, s: State, t: nat)
    requires Home(s, t) && s.threads[t].pc.Releasing?
    ensures var c, s' := s.threads[t].pc.hold.client, ReleaseStep(cfg, s, t);
            Writes(s, s', t, c, Released(cfg, s.clients[c])) && s'.counts == s.counts && s'.active == s.active
  {
  }

  lemma ReleaseKeeps(cfg: Config, s: State, t: nat)
    requires Inv(cfg, s) && Within(s, t) && s.threads[t].pc.Releasing?
    ensures Inv(cfg, ReleaseStep(cfg, s, t))
  {
    AtHome(cfg, s, t);
    ReleaseOwn(cfg, s, t);
    ReleaseWrites(cfg, s, t);
    var c := s.threads[t].pc.hold.client;
    WriteKeeps(cfg, s, ReleaseStep(cfg, s, t), t, c, Released(cfg, s.clients[c]));
  }

  // Steps that take an entry out of the cache

  ghost predicate Removes(s: State, s': State, t: nat, k: Key) {
    Moves(s, s', t) && k in s.entries && s'.entries == s.entries - {k} && s.lock == s'.lock == Some(t) &&
    s'.clients == s.clients && s'.flights == s.flights && s'.pending == s.pending && Locked(s'.threads[t].pc)
  }

  lemma OneLess(m: map<Key, ClientId>, k: Key)
    requires k in m
    ensures |m - {k}| == |m| - 1
  {
    var less := m - {k};
    assert m == less[k := m[k]];
  }

  lemma RemoveFrame(cfg: Config, s: State, s': State, t: nat, k: Key)
    requires Shape(cfg, s) && Removes(s, s', t, k)
    ensures Frame(cfg, s, s', t)
  {
    OneLess(s.entries, k);
  }

  /** The thread takes on the removed client; a removal counts as an eviction to report, or as silent. */
  lemma RemovePays(cfg: Config, s: State, s': State, t: nat, k: Key, p: Profile, p': Profile)
    requires MapsInRange(s) && CacheOk(cfg, s) && Removes(s, s', t, k) && s'.active == s.active
    requires s'.counts == s.counts.(silent := s'.counts.silent)
    requires p' == p.(leaving := Some(s.entries[k]), owed := Some(s.entries[k]), debt := p'.debt)
    requires p'.debt == p.debt - 1 + (s'.counts.silent - s.counts.silent) && p.leaving == p.owed == None
    ensures Pays(s, s', p, p')
  {
    OneLess(s.entries, k);
    forall m: Measure | !m.Owing? ensures Counter(s', m) - Counter(s, m) == Stake(m, p') - Stake(m, p) {
      match m
      case Unplaced(c) => RemoveUnplaces(cfg, s, s', t, k, c);
      case Gauge =>
      case _ =>
    }
  }

  lemma RemoveUnplaces(cfg: Config, s: State, s': State, t: nat, k: Key, c: ClientId)
    requires MapsInRange(s) && CacheOk(cfg, s) && Removes(s, s', t, k)
    ensures Counter(s', Unplaced(c)) - Counter(s, Unplaced(c)) == One(c == s.entries[k])
  {
  }

  lemma RemoveRemembers(s: State, s': State, t: nat, k: Key, p: Profile, p': Profile)
    requires Removes(s, s', t, k) && p.owed == None && p'.owed == Some(s.entries[k])
    ensures Remembers(s, s', p, p')
  {
  }

  lemma RemoveKeeps(cfg: Config, s: State, s': State, t: nat, k: Key)
    requires Inv(cfg, s) && Removes(s, s', t, k) && Own(s', t) && s'.active == s.active
    requires s'.counts == s.counts.(silent := s'.counts.silent)
    requires var p, p' := ProfileOf(s.threads[t]), ProfileOf(s'.threads[t]);
             p' == p.(leaving := Some(s.entries[k]), owed := Some(s.entries[k]), debt := p'.debt) &&
             p.leaving == p.owed == None &&
             p'.debt == p.debt - 1 + (s'.counts.silent - s.counts.silent)
    ensures Inv(cfg, s')
  {
    RemoveFrame(cfg, s, s', t, k);
    RemovePays(cfg, s, s', t, k, ProfileOf(s.threads[t]), ProfileOf(s'.threads[t]));
    RemoveRemembers(s, s', t, k, ProfileOf(s.threads[t]), ProfileOf(s'.threads[t]));
    Keeps(cfg, s, s', t);
  }

  lemma EvictLog(cfg: Config, s: State, t: nat, a: Inserting)
    requires MapsInRange(s) && Home(s, t) && CanInsert(cfg, s, s.threads[t].pc, a) && a.Evict?
    ensures OwnLog(InsertStep(cfg, s, t, a), t)
  {
    hide RefsOk;
    hide Known;
    hide Sure;
  }

  lemma EvictRefs(cfg: Config, s: State, t: nat, a: Inserting)
    requires MapsInRange(s) && Home(s, t) && CanInsert(cfg, s, s.threads[t].pc, a) && a.Evict?
    ensures OwnRefs(InsertStep(cfg, s, t, a), t)
  {
    hide LogOk;
    hide Known;
    hide Sure;
  }

  lemma EvictOwn(cfg: Config, s: State, t: nat, a: Inserting)
    requires MapsInRange(s) && Home(s, t) && CanInsert(cfg, s, s.threads[t].pc, a) && a.Evict?
    ensures Own(InsertStep(cfg, s, t, a), t)
  {
    hide OwnLog;
    hide OwnRefs;
    EvictLog(cfg, s, t, a);
    EvictRefs(cfg, s, t, a);
  }

  lemma EvictRemoves(cfg: Config, s: State, t: nat, a: Inserting)
    requires InRange(s) && Within(s, t) && CanInsert(cfg, s, s.threads[t].pc, a) && a.Evict? && s.lock == Some(t)
    ensures var s' := InsertStep(cfg, s, t, a);
            Removes(s, s', t, a.victim) && s'.active == s.active && s'.counts == s.counts
  {
  }

  lemma EvictProfile(cfg: Config, s: State, t: nat, a: Inserting)
    requires InRange(s) && Within(s, t) && CanInsert(cfg, s, s.threads[t].pc, a) && a.Evict?
    ensures |InsertStep(cfg, s, t, a).threads| == |s.threads|
    ensures var p, p' := ProfileOf(s.threads[t]), ProfileOf(InsertStep(cfg, s, t, a).threads[t]);
            var v := Some(s.entries[a.victim]);
            p' == p.(leaving := v, owed := v, debt := p.debt - 1) && p.leaving == p.owed == None
  {
  }

  lemma EvictKeeps(cfg: Config, s: State, t: nat, a: Inserting)
    requires Inv(cfg, s) && Within(s, t) && CanInsert(cfg, s, s.threads[t].pc, a) && a.Evict?
    ensures Inv(cfg, InsertStep(cfg, s, t, a))
  {
    hide InsertStep;
    hide ProfileOf;
    hide Own;
    AtHome(cfg, s, t);
    EvictOwn(cfg, s, t, a);
    EvictRemoves(cfg, s, t, a);
    EvictProfile(cfg, s, t, a);
    RemoveKeeps(cfg, s, InsertStep(cfg, s, t, a), t, a.victim);
  }

  lemma ClearingLog(s: State, t: nat, a: Clearing)
    requires InRange(s) && Home(s, t) && CanClear(s, s.threads[t].pc, a)
    ensures OwnLog(ClearStep(s, t, a), t)
  {
    hide RefsOk;
    hide Known;
    hide Sure;
  }

  lemma ClearingRefs(s: State, t: nat, a: Clearing)
    requires InRange(s) && Home(s, t) && CanClear(s, s.threads[t].pc, a)
    ensures OwnRefs(ClearStep(s, t, a), t)
  {
    hide LogOk;
    hide Known;
    hide Sure;
  }

  lemma ClearingOwn(s: State, t: nat, a: Clearing)
    requires InRange(s) && Home(s, t) && CanClear(s, s.threads[t].pc, a)
    ensures Own(ClearStep(s, t, a), t)
  {
    hide OwnLog;
    hide OwnRefs;
    ClearingLog(s, t, a);
    ClearingRefs(s, t, a);
  }

  lemma VisitIsQuiet(s: State, t: nat, a: Clearing)
    requires InRange(s) && Within(s, t) && CanClear(s, s.threads[t].pc, a) &&
             !ClearStep(s, t, a).threads[t].pc.Retiring?
    ensures var s' := ClearStep(s, t, a); Quiet(s, s', t) && s'.active == s.active && s'.counts == s.counts
  {
  }

  lemma VisitProfile(s: State, t: nat, a: Clearing)
    requires InRange(s) && Within(s, t) && CanClear(s, s.threads[t].pc, a) &&
             !ClearStep(s, t, a).threads[t].pc.Retiring?
    ensures ProfileOf(ClearStep(s, t, a).threads[t]) == ProfileOf(s.threads[t])
  {
  }

  lemma VisitPasses(s: State, t: nat, a: Clearing)
    requires InRange(s) && Within(s, t) && CanClear(s, s.threads[t].pc, a) &&
             !ClearStep(s, t, a).threads[t].pc.Retiring?
    ensures var s' := ClearStep(s, t, a);
            Quiet(s, s', t) && QuietBooks(s, s', ProfileOf(s.threads[t]), ProfileOf(s'.threads[t]))
  {
    hide ProfileOf;
    VisitIsQuiet(s, t, a);
    VisitProfile(s, t, a);
  }

  lemma ClearingRemoves(s: State, t: nat, a: Clearing)
    requires InRange(s) && Within(s, t) && CanClear(s, s.threads[t].pc, a) && s.lock == Some(t)
    requires ClearStep(s, t, a).threads[t].pc.Retiring?
    ensures var s' := ClearStep(s, t, a);
            Removes(s, s', t, a.key) && s'.active == s.active &&
            s'.counts == if a.Drop? then s.counts.(silent := s.counts.silent + 1) else s.counts
  {
  }

  lemma ClearingProfile(s: State, t: nat, a: Clearing)
    requires InRange(s) && Within(s, t) && CanClear(s, s.threads[t].pc, a)
    requires ClearStep(s, t, a).threads[t].pc.Retiring?
    ensures var p, p' := ProfileOf(s.threads[t]), ProfileOf(ClearStep(s, t, a).threads[t]);
            var v := Some(s.entries[a.key]);
            p' == p.(leaving := v, owed := v, debt := p.debt - if a.Visit? then 1 else 0) && p.leaving == p.owed == None
  {
  }

  lemma ClearingKeeps(cfg: Config, s: State, t: nat, a: Clearing)
    requires Inv(cfg, s) && Within(s, t) && CanClear(s, s.threads[t].pc, a)
    ensures Inv(cfg, ClearStep(s, t, a))
  {
    hide ProfileOf;
    hide Own;
    AtHome(cfg, s, t);
    ClearingOwn(s, t, a);
    var s' := ClearStep(s, t, a);
    if s'.threads[t].pc.Retiring? {
      ClearingRemoves(s, t, a);
      ClearingProfile(s, t, a);
      RemoveKeeps(cfg, s, s', t, a.key);
    } else {
      VisitPasses(s, t, a);
      QuietKeeps(cfg, s, s', t);
    }
  }

  // Storing the built client

  lemma StoreLog(cfg: Config, s: State, t: nat, a: Inserting)
    requires MapsInRange(s) && Home(s, t) && CanInsert(cfg, s, s.threads[t].pc, a) && a.Store?
    ensures OwnLog(InsertStep(cfg, s, t, a), t)
  {
    hide RefsOk;
    hide Known;
    hide Sure;
  }

  lemma StoreRefs(cfg: Config, s: State, t: nat, a: Inserting)
    requires MapsInRange(s) && Home(s, t) && ClientsOk(s) && CanInsert(cfg, s, s.threads[t].pc, a) && a.Store?
    ensures OwnRefs(InsertStep(cfg, s, t, a), t)
  {
    hide LogOk;
    hide Known;
  }

  lemma StoreOwn(cfg: Config, s: State, t: nat, a: Inserting)
    requires MapsInRange(s) && Home(s, t) && ClientsOk(s) && CanInsert(cfg, s, s.threads[t].pc, a) && a.Store?
    ensures Own(InsertStep(cfg, s, t, a), t)
  {
    hide OwnLog;
    hide OwnRefs;
    StoreLog(cfg, s, t, a);
    StoreRefs(cfg, s, t, a);
  }

  lemma StoreConsiderate(cfg: Config, s: State, t: nat, a: Inserting)
    requires WellTyped(s) && LockOk(s) && s.lock == Some(t) && CanInsert(cfg, s, s.threads[t].pc, a) && a.Store?
    ensures Moves(s, InsertStep(cfg, s, t, a), t) && Considerate(s, InsertStep(cfg, s, t, a), t)
  {
  }

  /** A client stored under its own key keeps the shape of a cache that has room. */
  lemma EntersCache(cfg: Config, s: State, s': State, k: Key, c: ClientId, now: int)
    requires MapsInRange(s) && CacheOk(cfg, s) && |s.entries| < cfg.max && k !in s.pending
    requires c < |s.clients| && s.clients[c].key == k && !s.clients[c].retired
    requires s'.clients == s.clients[c := Acquired(s.clients[c], now)] && s'.entries == s.entries[k := c]
    requires s'.pending == s.pending && s'.flights == s.flights
    ensures MapsInRange(s') && CacheOk(cfg, s')
  {
    assert |s.entries[k := c]| <= |s.entries| + 1;
  }

  lemma StoreCache(cfg: Config, s: State, t: nat, a: Inserting)
    requires MapsInRange(s) && CacheOk(cfg, s) && Home(s, t) && CanInsert(cfg, s, s.threads[t].pc, a) && a.Store?
    ensures var s' := InsertStep(cfg, s, t, a); MapsInRange(s') && CacheOk(cfg, s')
  {
    hide LogOk;
    hide Known;
    hide CacheOk;
    var th, s' := s.threads[t], InsertStep(cfg, s, t, a);
    hide MapsInRange;
    EntersCache(cfg, s, s', th.key, th.pc.loop.added, a.now);
  }

  lemma StoreClients(cfg: Config, s: State, t: nat, a: Inserting)
    requires MapsInRange(s) && ClientsOk(s) && Home(s, t) && CanInsert(cfg, s, s.threads[t].pc, a) && a.Store?
    ensures var s' := InsertStep(cfg, s, t, a); MapsInRange(s') && ClientsOk(s')
  {
    hide LogOk;
    hide Known;
    hide Sure;
  }

  lemma StoreFrame(cfg: Config, s: State, t: nat, a: Inserting)
    requires Shape(cfg, s) && Home(s, t) && CanInsert(cfg, s, s.threads[t].pc, a) && a.Store?
    ensures Moves(s, InsertStep(cfg, s, t, a), t) && Frame(cfg, s, InsertStep(cfg, s, t, a), t)
  {
    hide Known;
    hide Sure;
    hide CacheOk;
    hide ClientsOk;
    hide Considerate;
    StoreConsiderate(cfg, s, t, a);
    StoreCache(cfg, s, t, a);
    StoreClients(cfg, s, t, a);
  }

  lemma StoreProfile(cfg: Config, s: State, t: nat, a: Inserting)
    requires InRange(s) && Within(s, t) && CanInsert(cfg, s, s.threads[t].pc, a) && a.Store?
    ensures |InsertStep(cfg, s, t, a).threads| == |s.threads|
    ensures var p, p' := ProfileOf(s.threads[t]), ProfileOf(InsertStep(cfg, s, t, a).threads[t]);
            var c := s.threads[t].pc.loop.added;
            p' == p.(hand := p'.hand, held := Some(c), carried := None, debt := p.debt + 1) && p.held == None &&
            p.carried == Some(c)
  {
  }

  lemma StorePays(s: State, s': State, k: Key, c: ClientId, now: int, p: Profile, p': Profile)
    requires c < |s.clients| && s.clients[c].inflight >= 0 && s.clients[c].key == k && k !in s.entries
    requires !s.clients[c].retired && s'.clients == s.clients[c := Acquired(s.clients[c], now)] &&
             s'.entries == s.entries[k := c]
    requires s'.flights == s.flights && s'.pending == s.pending && s'.counts == s.counts && s'.active == s.active
    requires p' == p.(hand := p'.hand, held := Some(c), carried := None, debt := p.debt + 1) && p.held == None &&
             p.carried == Some(c)
    ensures Pays(s, s', p, p')
  {
    forall m: Measure | !m.Owing? ensures Counter(s', m) - Counter(s, m) == Stake(m, p') - Stake(m, p) {
      match m
      case Inflight(_) =>
      case Unplaced(_) =>
      case Gauge =>
      case _ =>
    }
  }

  lemma StoreRemembers(s: State, s': State, c: ClientId, now: int, p: Profile, p': Profile)
    requires c < |s.clients| && !s.clients[c].retired && p'.owed == p.owed
    requires s'.clients == s.clients[c := Acquired(s.clients[c], now)]
    ensures Remembers(s, s', p, p')
  {
  }

  lemma StoreKeeps(cfg: Config, s: State, t: nat, a: Inserting)
    requires Inv(cfg, s) && Within(s, t) && CanInsert(cfg, s, s.threads[t].pc, a) && a.Store?
    ensures Inv(cfg, InsertStep(cfg, s, t, a))
  {
    hide ProfileOf;
    hide Own;
    hide Frame;
    hide Known;
    AtHome(cfg, s, t);
    StoreOwn(cfg, s, t, a);
    StoreFrame(cfg, s, t, a);
    StoreProfile(cfg, s, t, a);
    var s' := InsertStep(cfg, s, t, a);
    var c, p, p' := s.threads[t].pc.loop.added, ProfileOf(s.threads[t]), ProfileOf(s'.threads[t]);
    StorePays(s, s', s.threads[t].key, c, a.now, p, p');
    StoreRemembers(s, s', c, a.now, p, p');
    Keeps(cfg, s, s', t);
  }

  // Flights: registering, building, returning, landing

  lemma BookingLog(s: State, t: nat, a: Booking)
    requires Home(s, t) && CanBook(s, t, a)
    ensures OwnLog(Book(s, t, a), t)
  {
    hide RefsOk;
    hide Known;
    hide Sure;
  }

  lemma BookingRefs(s: State, t: nat, a: Booking)
    requires Home(s, t) && CanBook(s, t, a)
    ensures OwnRefs(Book(s, t, a), t)
  {
    hide LogOk;
  }

  lemma BookingOwn(s: State, t: nat, a: Booking)
    requires Home(s, t) && CanBook(s, t, a)
    ensures Own(Book(s, t, a), t)
  {
    hide OwnLog;
    hide OwnRefs;
    BookingLog(s, t, a);
    BookingRefs(s, t, a);
  }

  lemma MissFrame(cfg: Config, s: State, t: nat)
    requires Shape(cfg, s) && Home(s, t) && CanBook(s, t, LookupMiss)
    ensures Moves(s, Book(s, t, LookupMiss), t) && Frame(cfg, s, Book(s, t, LookupMiss), t)
  {
  }

  lemma ReturnFrame(cfg: Config, s: State, t: nat)
    requires Shape(cfg, s) && Home(s, t) && CanBook(s, t, Return)
    ensures Moves(s, Book(s, t, Return), t) && Frame(cfg, s, Book(s, t, Return), t)
  {
    hide Shape;
    hide Frame;
    hide ThreadOk;
    hide Known;
    hide Sure;
    UnlockedFrame(cfg, s, Book(s, t, Return), t);
  }

  /** Under a free lock no thread is about to close a victim, so only the cache itself is at stake. */
  lemma UnlockedFrame(cfg: Config, s: State, s': State, t: nat)
    requires Shape(cfg, s) && Moves(s, s', t) && s.lock == None && s'.clients == s.clients && s'.flights == s.flights
    requires s'.entries == s.entries && s'.pending.Keys <= s.pending.Keys &&
             (forall k :: k in s'.pending ==> s'.pending[k] == s.pending[k])
    requires Locked(s'.threads[t].pc) <==> s'.lock == Some(t)
    requires s'.lock.Some? ==> s'.lock == Some(t)
    ensures Frame(cfg, s, s', t)
  {
  }

  lemma MissProfile(s: State, t: nat)
    requires Within(s, t) && CanBook(s, t, LookupMiss)
    ensures |Book(s, t, LookupMiss).threads| == |s.threads|
    ensures var p, p' := ProfileOf(s.threads[t]), ProfileOf(Book(s, t, LookupMiss).threads[t]);
            p.builds == None && p.flies == None &&
            p' == p.(builds := Some(s.threads[t].key), flies := Some(|s.flights|))
  {
  }

  lemma ReturnProfile(s: State, t: nat)
    requires Within(s, t) && CanBook(s, t, Return)
    ensures |Book(s, t, Return).threads| == |s.threads|
    ensures var p, p' := ProfileOf(s.threads[t]), ProfileOf(Book(s, t, Return).threads[t]);
            p.builds == Some(s.threads[t].key) && p' == p.(builds := None)
  {
  }

  lemma MissPays(s: State, s': State, k: Key, p: Profile)
    requires k !in s.pending && s'.pending == s.pending[k := |s.flights|] &&
             s'.flights == s.flights + [Flight(k, false, None)]
    requires s'.clients == s.clients && s'.entries == s.entries && s'.counts == s.counts && s'.active == s.active
    requires p.builds == None && p.flies == None
    ensures var p' := p.(builds := Some(k), flies := Some(|s.flights|)); Pays(s, s', p, p') && Remembers(s, s', p, p')
  {
    var p' := p.(builds := Some(k), flies := Some(|s.flights|));
    forall m: Measure | !m.Owing? ensures Counter(s', m) - Counter(s, m) == Stake(m, p') - Stake(m, p) {
      match m
      case Builders(_) =>
      case Airborne(_) =>
      case _ =>
    }
  }

  lemma ReturnPays(s: State, s': State, k: Key, p: Profile)
    requires k in s.pending && s'.pending == s.pending - {k} && p.builds == Some(k)
    requires s'.clients == s.clients && s'.flights == s.flights && s'.entries == s.entries && s'.counts == s.counts &&
             s'.active == s.active
    ensures Pays(s, s', p, p.(builds := None)) && Remembers(s, s', p, p.(builds := None))
  {
    forall m: Measure | !m.Owing?
      ensures Counter(s', m) - Counter(s, m) == Stake(m, p.(builds := None)) - Stake(m, p)
    {
      match m
      case Builders(_) =>
      case _ =>
    }
  }

  lemma MissKeeps(cfg: Config, s: State, t: nat)
    requires Inv(cfg, s) && Within(s, t) && CanBook(s, t, LookupMiss)
    ensures Inv(cfg, Book(s, t, LookupMiss))
  {
    hide ProfileOf;
    hide Own;
    hide Frame;
    hide Sure;
    AtHome(cfg, s, t);
    BookingOwn(s, t, LookupMiss);
    MissProfile(s, t);
    MissFrame(cfg, s, t);
    MissPays(s, Book(s, t, LookupMiss), s.threads[t].key, ProfileOf(s.threads[t]));
    Keeps(cfg, s, Book(s, t, LookupMiss), t);
  }

  lemma ReturnKeeps(cfg: Config, s: State, t: nat)
    requires Inv(cfg, s) && Within(s, t) && CanBook(s, t, Return)
    ensures Inv(cfg, Book(s, t, Return))
  {
    hide ProfileOf;
    hide Own;
    hide Frame;
    hide Known;
    hide ThreadOk;
    AtHome(cfg, s, t);
    BookingOwn(s, t, Return);
    ReturnProfile(s, t);
    ReturnFrame(cfg, s, t);
    ReturnPays(s, Book(s, t, Return), s.threads[t].key, ProfileOf(s.threads[t]));
    Keeps(cfg, s, Book(s, t, Return), t);
  }

  lemma MakingLog(s: State, t: nat, a: Making)
    requires Home(s, t) && CanMake(s.threads[t].pc, a)
    ensures OwnLog(Make(s, t, a), t)
  {
    hide RefsOk;
    hide Known;
    hide Sure;
  }

  lemma MakingRefs(s: State, t: nat, a: Making)
    requires Home(s, t) && CanMake(s.threads[t].pc, a)
    ensures OwnRefs(Make(s, t, a), t)
  {
    hide LogOk;
  }

  lemma MakingOwn(s: State, t: nat, a: Making)
    requires Home(s, t) && CanMake(s.threads[t].pc, a)
    ensures Own(Make(s, t, a), t)
  {
    hide OwnLog;
    hide OwnRefs;
    MakingLog(s, t, a);
    MakingRefs(s, t, a);
  }

  lemma BuildFrame(cfg: Config, s: State, t: nat)
    requires Shape(cfg, s) && Home(s, t) && s.threads[t].pc.Making?
    ensures Moves(s, Make(s, t, BuildOk), t) && Frame(cfg, s, Make(s, t, BuildOk), t)
  {
  }

  lemma LandFrame(cfg: Config, s: State, t: nat)
    requires Shape(cfg, s) && Home(s, t) && s.threads[t].pc.Landing?
    ensures Moves(s, Make(s, t, Land), t) && Frame(cfg, s, Make(s, t, Land), t)
  {
  }

  lemma BuildPays(s: State, s': State, x: Client, p: Profile)
    requires InRange(s) && s'.clients == s.clients + [x] && x.inflight == 0 && !x.retired
    requires s'.flights == s.flights && s'.pending == s.pending && s'.entries == s.entries && s'.counts == s.counts &&
             s'.active == s.active
    requires p.carried == None
    ensures var p' := p.(carried := Some(|s.clients|)); Pays(s, s', p, p') && Remembers(s, s', p, p')
  {
  }

  lemma LandPays(s: State, s': State, f: FlightId, x: Flight, p: Profile)
    requires f < |s.flights| && !s.flights[f].landed && x.landed && s'.flights == s.flights[f := x] &&
             p.flies == Some(f)
    requires s'.clients == s.clients && s'.pending == s.pending && s'.entries == s.entries && s'.counts == s.counts &&
             s'.active == s.active
    ensures var p' := p.(flies := None); Pays(s, s', p, p') && Remembers(s, s', p, p')
  {
  }

  lemma BuildProfile(s: State, t: nat)
    requires Home(s, t) && s.threads[t].pc.Making?
    ensures |Make(s, t, BuildOk).threads| == |s.threads|
    ensures var p, p' := ProfileOf(s.threads[t]), ProfileOf(Make(s, t, BuildOk).threads[t]);
            p.carried == None && p' == p.(carried := Some(|s.clients|))
  {
  }

  lemma LandProfile(s: State, t: nat)
    requires Home(s, t) && s.threads[t].pc.Landing?
    ensures |Make(s, t, Land).threads| == |s.threads|
    ensures var p, p' := ProfileOf(s.threads[t]), ProfileOf(Make(s, t, Land).threads[t]);
            p.flies == Some(s.threads[t].pc.flight) && p' == p.(flies := None)
  {
  }

  lemma BuildKeeps(cfg: Config, s: State, t: nat)
    requires Inv(cfg, s) && Within(s, t) && s.threads[t].pc.Making?
    ensures Inv(cfg, Make(s, t, BuildOk))
  {
    hide ProfileOf;
    hide Own;
    hide Frame;
    AtHome(cfg, s, t);
    MakingOwn(s, t, BuildOk);
    BuildProfile(s, t);
    BuildFrame(cfg, s, t);
    var s' := Make(s, t, BuildOk);
    BuildPays(s, s', s'.clients[|s.clients|], ProfileOf(s.threads[t]));
    Keeps(cfg, s, s', t);
  }

  lemma LandKeeps(cfg: Config, s: State, t: nat)
    requires Inv(cfg, s) && Within(s, t) && s.threads[t].pc.Landing?
    ensures Inv(cfg, Make(s, t, Land))
  {
    hide ProfileOf;
    hide Own;
    hide Frame;
    AtHome(cfg, s, t);
    MakingOwn(s, t, Land);
    LandProfile(s, t);
    LandFrame(cfg, s, t);
    var s', f := Make(s, t, Land), s.threads[t].pc.flight;
    LandPays(s, s', f, s'.flights[f], ProfileOf(s.threads[t]));
    Keeps(cfg, s, s', t);
  }

  // The lock sections of Sweep and Cache.Close

  lemma LockingLog(s: State, t: nat, a: Locking)
    requires Home(s, t) && CanTurn(s, s.threads[t].pc, a)
    ensures OwnLog(Turn(s, t, a), t)
  {
    hide RefsOk;
    hide Known;
    hide Sure;
  }

  lemma LockingRefs(s: State, t: nat, a: Locking)
    requires Home(s, t) && CanTurn(s, s.threads[t].pc, a)
    ensures OwnRefs(Turn(s, t, a), t)
  {
    hide LogOk;
  }

  lemma LockingOwn(s: State, t: nat, a: Locking)
    requires Home(s, t) && CanTurn(s, s.threads[t].pc, a)
    ensures Own(Turn(s, t, a), t)
  {
    hide OwnLog;
    hide OwnRefs;
    LockingLog(s, t, a);
    LockingRefs(s, t, a);
  }

  lemma LockingFrame(cfg: Config, s: State, t: nat, a: Locking)
    requires Shape(cfg, s) && t < |s.threads| && CanTurn(s, s.threads[t].pc, a)
    ensures Moves(s, Turn(s, t, a), t) && Frame(cfg, s, Turn(s, t, a), t)
  {
  }

  lemma LockingProfile(s: State, t: nat, a: Locking)
    requires t < |s.threads| && CanTurn(s, s.threads[t].pc, a)
    ensures |Turn(s, t, a).threads| == |s.threads| && ProfileOf(Turn(s, t, a).threads[t]) == ProfileOf(s.threads[t])
  {
  }

  lemma SamePays(s: State, s': State, p: Profile)
    requires s'.clients == s.clients && s'.flights == s.flights && s'.pending == s.pending && s'.entries == s.entries
    requires s'.counts == s.counts && s'.active == s.active
    ensures Pays(s, s', p, p) && Remembers(s, s', p, p)
  {
  }

  lemma LockingKeeps(cfg: Config, s: State, t: nat, a: Locking)
    requires Inv(cfg, s) && Within(s, t) && CanTurn(s, s.threads[t].pc, a)
    ensures Inv(cfg, Turn(s, t, a))
  {
    AtHome(cfg, s, t);
    LockingOwn(s, t, a);
    LockingFrame(cfg, s, t, a);
    LockingProfile(s, t, a);
    SamePays(s, Turn(s, t, a), ProfileOf(s.threads[t]));
    Keeps(cfg, s, Turn(s, t, a), t);
  }

  // Every event

  predicate IsQuiet(a: Action) {
    a.Arrives? || a.Departs? || a.Notes? || a.Tells? || a.Ends? || a.Chooses? || a.Goes?
  }

  lemma QuietMoves(cfg: Config, s: State, e: Event)
    requires WellTyped(s) && Enabled(cfg, s, e) && IsQuiet(e.what)
    ensures Quiet(s, Apply(cfg, s, e), e.who)
  {
    var t := e.who;
    match e.what
    case Arrives(a) => ArrivalMoves(s, t, a);
    case Departs(a) => DepartureMoves(s, t, a);
    case Notes(a) => NoticeMoves(s, t, a);
    case Tells(a) => ReportMoves(s, t, a);
    case Ends(a) => OutcomeMoves(s, t, a);
    case Chooses(a) => ChoiceMoves(s, t, a);
    case Goes(a) => ProgressMoves(s, t, a);
  }

  /** A quiet step keeps what the thread stands for, and reports what changed. */
  lemma QuietStepKeeps(cfg: Config, s: State, e: Event)
    requires Inv(cfg, s) && Enabled(cfg, s, e) && IsQuiet(e.what)
    ensures Inv(cfg, Apply(cfg, s, e))
  {
    hide Quiet;
    hide QuietBooks;
    hide Own;
    hide ProfileOf;
    var t := e.who;
    AtHome(cfg, s, t);
    QuietMoves(cfg, s, e);
    match e.what
    case Arrives(a) => ArrivalOwn(s, t, a); ArrivalPays(s, t, a); QuietKeeps(cfg, s, Arrive(s, t, a), t);
    case Departs(a) => DepartureOwn(s, t, a); DeparturePays(s, t, a); QuietKeeps(cfg, s, Depart(s, t, a), t);
    case Notes(a) => NoticeOwn(s, t, a); NoticePays(s, t, a); QuietKeeps(cfg, s, Note(s, t, a), t);
    case Tells(a) => ReportOwn(s, t, a); ReportPays(s, t, a); QuietKeeps(cfg, s, Tell(s, t, a), t);
    case Ends(a) => OutcomeOwn(s, t, a); OutcomePays(s, t, a); QuietKeeps(cfg, s, End(s, t, a), t);
    case Chooses(a) => ChoiceOwn(s, t, a); ChoicePays(s, t, a); QuietKeeps(cfg, s, Choose(s, t, a), t);
    case Goes(a) => ProgressOwn(s, t, a); ProgressPays(s, t, a); QuietKeeps(cfg, s, Go(s, t, a), t);
  }

  lemma BeginKeeps(cfg: Config, s: State, a: Beginning)
    requires Inv(cfg, s) && CanBegin(cfg, s, a)
    ensures Inv(cfg, Begin(s, a))
  {
    BeginShape(cfg, s, a);
    BeginBooks(s, a);
  }

  lemma StepKeeps(cfg: Config, s: State, e: Event)
    requires Inv(cfg, s) && Enabled(cfg, s, e)
    ensures Inv(cfg, Apply(cfg, s, e))
  {
    var t := e.who;
    if e.what.Begins? {
      BeginKeeps(cfg, s, e.what.begins);
    } else {
      AtHome(cfg, s, t);
      match e.what
      case Arrives(_) => QuietStepKeeps(cfg, s, e);
      case Departs(_) => QuietStepKeeps(cfg, s, e);
      case Notes(_) => QuietStepKeeps(cfg, s, e);
      case Tells(_) => QuietStepKeeps(cfg, s, e);
      case Ends(_) => QuietStepKeeps(cfg, s, e);
      case Chooses(_) => QuietStepKeeps(cfg, s, e);
      case Goes(_) => QuietStepKeeps(cfg, s, e);
      case Takes(a) => TakingKeeps(cfg, s, t, a);
      case Books(a) => if a.LookupMiss? { MissKeeps(cfg, s, t); } else { ReturnKeeps(cfg, s, t); }
      case Makes(a) => if a.BuildOk? { BuildKeeps(cfg, s, t); } else { LandKeeps(cfg, s, t); }
      case Inserts(a) => if a.Evict? { EvictKeeps(cfg, s, t, a); } else { StoreKeeps(cfg, s, t, a); }
      case Clears(a) => ClearingKeeps(cfg, s, t, a);
      case Closes(a) => ClosingKeeps(cfg, s, t, a);
      case Turns(a) => LockingKeeps(cfg, s, t, a);
      case Release => ReleaseKeeps(cfg, s, t);
    }
  }

  /** The invariant holds after every sequence of events, from the empty state and from any state it holds in. */
  lemma {:induction false} RunKeeps(cfg: Config, s: State, run: seq<Event>)
    requires Inv(cfg, s) && Exec(cfg, s, run).Some?
    ensures Inv(cfg, Exec(cfg, s, run).value)
    decreases |run|
  {
    if run != [] {
      StepKeeps(cfg, s, run[0]);
      RunKeeps(cfg, Apply(cfg, s, run[0]), run[1..]);
    }
  }
}
