/** What holds of every run of the lifecycle, at the granularity each claim needs. */
module LifecycleTheorems {
  import opened Options
  import opened Lifecycle
  import opened LifecycleBooks
  import opened LifecycleInvariant
  import opened LifecycleSteps

  /** Running the events from the empty state arrives at s. */
  ghost predicate Reaches(cfg: Config, run: seq<Event>, s: State) {
    Exec(cfg, Init(), run) == Some(s)
  }

  lemma Reached(cfg: Config, run: seq<Event>, s: State)
    requires Reaches(cfg, run, s)
    ensures Inv(cfg, s)
  {
    InitInv(cfg);
    RunKeeps(cfg, Init(), run);
  }

  lemma SumZero(m: Measure, s: State)
    requires m != Gauge && forall t :: 0 <= t < |s.threads| ==> Units(m, s.threads[t]) == 0
    ensures Sum(m, s.threads) == 0
  {
    if Sum(m, s.threads) > 0 {
      var t := SumPositive(m, s.threads);
    } else if s.threads != [] {
      SumFloor(m, s.threads, 0, 0);
    }
  }

  /** Where the counter of a zero-or-one measure counts exactly the threads that match. */
  lemma CounterCounts(s: State, m: Measure)
    requires Balanced(s) && !m.Owing? && forall t :: 0 <= t < |s.threads| ==> 0 <= Units(m, s.threads[t]) <= 1
    ensures Counter(s, m) == |Marked(m, s.threads)|
  {
    SumCounts(m, s.threads);
  }

  // No close is lost

  predicate Closed(r: Option<State>, c: ClientId) {
    r.Some? && c < |r.value.clients| && r.value.clients[c].closed
  }

  /** How many events of a run are thread t's. */
  function StepsOf(run: seq<Event>, t: nat): nat {
    if run == [] then 0 else (if run[0].who == t then 1 else 0) + StepsOf(run[1..], t)
  }

  /** Thread t closes c: however it and the others go on, it can always take its next step until c is closed, and two
      steps of its own are enough. */
  ghost predicate WillClose(cfg: Config, s: State, t: nat, c: ClientId) {
    forall run :: Exec(cfg, s, run).Some? ==>
      var r := Exec(cfg, s, run);
      Closed(r, c) || (StepsOf(run, t) < 2 && WellTyped(r.value) && CanStep(cfg, r.value, t))
  }

  /** Some event of thread t is enabled. */
  ghost predicate CanStep(cfg: Config, s: State, t: nat)
    requires WellTyped(s)
  {
    exists e: Event :: e.who == t && Enabled(cfg, s, e)
  }

  lemma OneStep(cfg: Config, s: State, e: Event)
    requires WellTyped(s) && Enabled(cfg, s, e)
    ensures Exec(cfg, s, [e]) == Some(Apply(cfg, s, e))
  {
    assert [e][1..] == [];
  }

  /** Thread t closes c in its next n steps: it has looked and is about to, or is about to look at what nobody can
      change. */
  ghost predicate Due(s: State, t: nat, c: ClientId, n: nat) {
    t < |s.threads| && c < |s.clients| && s.clients[c].retired &&
    var pc := s.threads[t].pc;
    (n >= 1 && ((pc.ClosingVictim? && pc.victim == c) || (pc.LastClose? && pc.client == c))) ||
    (n >= 2 && ((pc.Checking? && pc.victim == c && s.clients[c].inflight == 0) || (pc.LastLook? && pc.client == c)))
  }

  lemma DueCanStep(cfg: Config, s: State, t: nat, c: ClientId, n: nat)
    requires WellTyped(s) && Due(s, t, c, n)
    ensures CanStep(cfg, s, t)
  {
    var pc := s.threads[t].pc;
    var what := if pc.Checking? then Chooses(CheckIdle) else if pc.LastLook? then Chooses(LoadRetired)
                else if pc.ClosingVictim? then Closes(CloseVictim) else Closes(CloseLast);
    AllWithin(s, t);
    assert Enabled(cfg, s, Event(t, what));
  }

  /** Its own step brings thread t nearer. */
  lemma DueComes(cfg: Config, s: State, e: Event, c: ClientId, n: nat)
    requires WellTyped(s) && Enabled(cfg, s, e) && Due(s, e.who, c, n) && n <= 2
    ensures var s' := Apply(cfg, s, e);
            c < |s'.clients| && (s'.clients[c].closed || (n == 2 && Due(s', e.who, c, 1)))
  {
    match e.what
    case Chooses(_) =>
    case Closes(_) =>
  }

  predicate NeedsLock(a: Action) {
    a.Takes? || a.Books? || a.Inserts? || a.Clears? || a.Turns? || (a.Closes? && !a.closes.CloseLast?)
  }

  /** Of the events that touch clients, only the building of one and the closing ones need no lock. */
  lemma LockKeepsOut(cfg: Config, s: State, e: Event, t: nat)
    requires WellTyped(s) && LockOk(s) && Enabled(cfg, s, e) && s.lock == Some(t) && e.who != t
    ensures !NeedsLock(e.what)
  {
    if !e.what.Begins? {
      assert !Locked(s.threads[e.who].pc);
    }
  }

  lemma MakingCounts(s: State, t: nat, a: Making, c: ClientId)
    requires Within(s, t) && CanMake(s.threads[t].pc, a) && c < |s.clients|
    ensures c < |Make(s, t, a).clients| && Make(s, t, a).clients[c].inflight == s.clients[c].inflight
  {
  }

  lemma ClosingCounts(s: State, t: nat, a: Closing, c: ClientId)
    requires Within(s, t) && CanClose(s.threads[t].pc, a) && c < |s.clients|
    ensures c < |CloseStep(s, t, a).clients| && CloseStep(s, t, a).clients[c].inflight == s.clients[c].inflight
  {
  }

  lemma ReleaseCounts(cfg: Config, s: State, t: nat, c: ClientId)
    requires Within(s, t) && s.threads[t].pc.Releasing? && c < |s.clients| && s.threads[t].pc.hold.client != c
    ensures c < |ReleaseStep(cfg, s, t).clients| && ReleaseStep(cfg, s, t).clients[c].inflight == s.clients[c].inflight
  {
  }

  /** While thread t holds the lock, nobody else acquires a client. */
  lemma IdleStays(cfg: Config, s: State, e: Event, t: nat, c: ClientId)
    requires Inv(cfg, s) && Enabled(cfg, s, e) && s.lock == Some(t) && e.who != t
    requires c < |s.clients| && s.clients[c].inflight == 0
    ensures c < |Apply(cfg, s, e).clients| && Apply(cfg, s, e).clients[c].inflight == 0
  {
    LockKeepsOut(cfg, s, e, t);
    if IsQuiet(e.what) {
      QuietMoves(cfg, s, e);
    } else if !e.what.Begins? {
      AllWithin(s, e.who);
      hide Within;
      hide PcInRange;
      match e.what
      case Release =>
        IdleIsUnheld(s, e.who);
        ReleaseCounts(cfg, s, e.who, c);
      case Makes(a) => MakingCounts(s, e.who, a, c);
      case Closes(a) => ClosingCounts(s, e.who, a, c);
    }
  }

  /** The others' steps leave it as near. */
  lemma DueStays(cfg: Config, s: State, e: Event, t: nat, c: ClientId, n: nat)
    requires Inv(cfg, s) && Enabled(cfg, s, e) && Due(s, t, c, n) && e.who != t
    ensures Due(Apply(cfg, s, e), t, c, n)
  {
    StepIsPlain(cfg, s, e);
    if s.threads[t].pc.Checking? {
      assert Locked(s.threads[t].pc);
      IdleStays(cfg, s, e, t, c);
    }
  }

  lemma {:induction false} ClosedRun(cfg: Config, s: State, run: seq<Event>, c: ClientId)
    requires Exec(cfg, s, run).Some? && Closed(Some(s), c)
    ensures Closed(Exec(cfg, s, run), c)
    decreases |run|
  {
    if run != [] {
      StepIsPlain(cfg, s, run[0]);
      ClosedRun(cfg, Apply(cfg, s, run[0]), run[1..], c);
    }
  }

  lemma {:induction false} DueRun(cfg: Config, s: State, run: seq<Event>, t: nat, c: ClientId, n: nat)
    requires Inv(cfg, s) && Due(s, t, c, n) && n <= 2 && Exec(cfg, s, run).Some?
    ensures var r := Exec(cfg, s, run);
            Closed(r, c) || (StepsOf(run, t) < n && WellTyped(r.value) && CanStep(cfg, r.value, t))
    decreases |run|
  {
    if run == [] {
      DueCanStep(cfg, s, t, c, n);
    } else {
      var s' := Apply(cfg, s, run[0]);
      StepKeeps(cfg, s, run[0]);
      if run[0].who != t {
        DueStays(cfg, s, run[0], t, c, n);
        DueRun(cfg, s', run[1..], t, c, n);
      } else {
        DueComes(cfg, s, run[0], c, n);
        if s'.clients[c].closed {
          ClosedRun(cfg, s', run[1..], c);
        } else {
          DueRun(cfg, s', run[1..], t, c, 1);
        }
      }
    }
  }

  /** The thread that owes a close is one or two of its own steps from it. */
  lemma OwerIsDue(cfg: Config, s: State, t: nat, c: ClientId)
    requires Inv(cfg, s) && t < |s.threads| && c < |s.clients|
    requires s.clients[c].retired && s.clients[c].inflight == 0 && Units(Owing(c), s.threads[t]) > 0
    ensures Due(s, t, c, 2)
  {
    AtHome(cfg, s, t);
  }

  /** However the atomic steps of Release and retire interleave with each other and with all else, a retired client
      nobody holds is closed, or there is a thread that closes it with its own next one or two steps, whatever the
      others do. */
  lemma NoCloseIsLost(cfg: Config, run: seq<Event>, s: State, c: ClientId)
    requires Reaches(cfg, run, s) && c < |s.clients| && s.clients[c].retired && s.clients[c].inflight == 0
    ensures s.clients[c].closed || exists t :: 0 <= t < |s.threads| && WillClose(cfg, s, t, c)
  {
    Reached(cfg, run, s);
    if !s.clients[c].closed {
      var t := SumPositive(Owing(c), s.threads);
      OwerIsDue(cfg, s, t, c);
      forall more | Exec(cfg, s, more).Some?
        ensures var r := Exec(cfg, s, more);
                Closed(r, c) || (StepsOf(more, t) < 2 && WellTyped(r.value) && CanStep(cfg, r.value, t))
      {
        DueRun(cfg, s, more, t, c, 2);
      }
      assert WillClose(cfg, s, t, c);
    }
  }

  // Single flight

  predicate BuildingFor(th: Thread, k: Key) {
    (th.pc.MissSeen? || th.pc.Making? || th.pc.Built?) && th.key == k
  }

  lemma BuildersCount(s: State, k: Key)
    requires Balanced(s)
    ensures |set t | 0 <= t < |s.threads| && BuildingFor(s.threads[t], k)| == if k in s.pending then 1 else 0
  {
    CounterCounts(s, Builders(k));
    assert Marked(Builders(k), s.threads) == set t | 0 <= t < |s.threads| && BuildingFor(s.threads[t], k);
  }

  /** At every step, with Release split or not: a key is never both cached and pending; a pending key has exactly one
      builder and any other key none; a cached client sits under its own key alone, unretired and open; the cache is
      within its bound. */
  lemma SingleFlight(cfg: Config, run: seq<Event>, s: State)
    requires Reaches(cfg, run, s)
    ensures forall k :: |set t | 0 <= t < |s.threads| && BuildingFor(s.threads[t], k)| ==
              if k in s.pending then 1 else 0
    ensures forall k :: k in s.entries ==> k !in s.pending && s.entries[k] < |s.clients|
    ensures forall k :: k in s.entries ==> !s.clients[s.entries[k]].retired && !s.clients[s.entries[k]].closed
    ensures forall j, k :: j in s.entries && k in s.entries && s.entries[j] == s.entries[k] ==> j == k
    ensures |s.entries| <= cfg.max
  {
    Reached(cfg, run, s);
    forall k ensures |set t | 0 <= t < |s.threads| && BuildingFor(s.threads[t], k)| == if k in s.pending then 1 else 0 {
      BuildersCount(s, k);
    }
  }

  // What Get returns

  function Holders(s: State, c: ClientId): set<nat> {
    set t | 0 <= t < |s.threads| && HoldOf(s.threads[t].pc).Some? && HoldOf(s.threads[t].pc).value.client == c
  }

  lemma InflightIsCount(s: State, c: ClientId)
    requires Balanced(s) && c < |s.clients|
    ensures s.clients[c].inflight == |Holders(s, c)|
  {
    CounterCounts(s, Inflight(c));
    assert Marked(Inflight(c), s.threads) == Holders(s, c);
  }

  /** A client in a request's hands was built for the key the request asked for; a hit and a builder took it while it
      was open; and its in-flight count is the number of threads holding it. */
  lemma GetReturnsItsKey(cfg: Config, run: seq<Event>, s: State)
    requires Reaches(cfg, run, s)
    ensures forall t :: 0 <= t < |s.threads| && HoldOf(s.threads[t].pc).Some? ==>
              var h := HoldOf(s.threads[t].pc).value;
              h.client < |s.clients| && s.clients[h.client].key == s.threads[t].key && (h.source != Wait ==> h.open)
    ensures forall c :: 0 <= c < |s.clients| ==> s.clients[c].inflight == |Holders(s, c)|
  {
    Reached(cfg, run, s);
    forall c | 0 <= c < |s.clients| ensures s.clients[c].inflight == |Holders(s, c)| {
      InflightIsCount(s, c);
    }
  }

  /** A flight that has not landed has exactly one thread that will land it, so no waiter is left behind. */
  lemma EveryFlightLands(cfg: Config, run: seq<Event>, s: State, f: FlightId)
    requires Reaches(cfg, run, s) && f < |s.flights|
    ensures |set t | 0 <= t < |s.threads| && ProfileOf(s.threads[t]).flies == Some(f)| ==
              if s.flights[f].landed then 0 else 1
  {
    Reached(cfg, run, s);
    CounterCounts(s, Airborne(f));
    assert Marked(Airborne(f), s.threads) == set t | 0 <= t < |s.threads| && ProfileOf(s.threads[t]).flies == Some(f);
  }

  // Holder safety

  /** What was open when its holder took it is open now. */
  ghost predicate HolderSafe(s: State, pc: Pc)
    requires PcInRange(s, pc)
  {
    HoldOf(pc).Some? && HoldOf(pc).value.open ==> !s.clients[HoldOf(pc).value.client].closed
  }

  ghost predicate Safe(s: State)
    requires WellTyped(s)
  {
    forall t :: 0 <= t < |s.threads| ==> HolderSafe(s, s.threads[t].pc)
  }

  /** No Release is between its two atomic steps. */
  ghost predicate Whole(s: State) {
    forall t :: 0 <= t < |s.threads| ==> !HalfReleased(s.threads[t].pc)
  }

  /** Only retire and Release close a client, and they close only one that nobody holds any more. */
  lemma ReleaseClosesIdle(cfg: Config, s: State, t: nat, c: ClientId)
    requires Within(s, t) && s.threads[t].pc.Releasing? && c < |s.clients| && ReleaseStep(cfg, s, t).clients[c].closed
    ensures s.clients[c].closed || ReleaseStep(cfg, s, t).clients[c].inflight == 0
  {
  }

  lemma RetireClosesIdle(s: State, t: nat, a: Closing, c: ClientId)
    requires Home(s, t) && CanClose(s.threads[t].pc, a) && !a.CloseLast? && c < |s.clients| &&
             CloseStep(s, t, a).clients[c].closed
    ensures s.clients[c].closed || CloseStep(s, t, a).clients[c].inflight == 0
  {
  }

  /** A client that nobody holds is in no thread's hands. */
  lemma IdleIsUnheld(s: State, t: nat)
    requires Balanced(s) && t < |s.threads| && HoldOf(s.threads[t].pc).Some?
    requires HoldOf(s.threads[t].pc).value.client < |s.clients|
    ensures s.clients[HoldOf(s.threads[t].pc).value.client].inflight >= 1
  {
    Floor(s, Inflight(HoldOf(s.threads[t].pc).value.client), t);
  }

  /** Nobody holds a client whose Release is between its two steps. */
  ghost predicate Calm(s: State) {
    forall t, u :: 0 <= t < |s.threads| && 0 <= u < |s.threads| && HalfReleased(s.threads[u].pc) &&
                   HoldOf(s.threads[t].pc).Some? ==>
      HoldOf(s.threads[t].pc).value.client != s.threads[u].pc.client
  }

  lemma CalmIsIdle(s: State, u: nat)
    requires Balanced(s) && Calm(s) && u < |s.threads| && HalfReleased(s.threads[u].pc) &&
             s.threads[u].pc.client < |s.clients|
    ensures s.clients[s.threads[u].pc.client].inflight == 0
  {
    var c := s.threads[u].pc.client;
    SumZero(Inflight(c), s);
    assert Counter(s, Inflight(c)) == 0;
  }

  lemma LastCloseShuts(s: State, t: nat, c: ClientId)
    requires Within(s, t) && CanClose(s.threads[t].pc, CloseLast) && c < |s.clients| &&
             CloseStep(s, t, CloseLast).clients[c].closed
    ensures s.clients[c].closed || s.threads[t].pc.client == c
    ensures CloseStep(s, t, CloseLast).clients[c].inflight == s.clients[c].inflight
  {
  }

  /** Only the second step of a split Release can close a client in use. */
  lemma ClosesIdle(cfg: Config, s: State, e: Event, c: ClientId)
    requires Inv(cfg, s) && Enabled(cfg, s, e)
    requires c < |Apply(cfg, s, e).clients| && Apply(cfg, s, e).clients[c].closed
    ensures (c < |s.clients| && s.clients[c].closed) || Apply(cfg, s, e).clients[c].inflight == 0 ||
            (e.what == Closes(CloseLast) && s.threads[e.who].pc.client == c && s.clients[c].inflight > 0)
  {
    if e.what.Closes? {
      ClosingIdle(cfg, s, e.who, e.what.closes, c);
    } else if e.what.Release? {
      AllWithin(s, e.who);
      ReleaseClosesIdle(cfg, s, e.who, c);
    } else {
      OthersCloseNone(cfg, s, e);
    }
  }

  lemma ClosingIdle(cfg: Config, s: State, t: nat, a: Closing, c: ClientId)
    requires Inv(cfg, s) && Within(s, t) && CanClose(s.threads[t].pc, a)
    requires c < |CloseStep(s, t, a).clients| && CloseStep(s, t, a).clients[c].closed
    ensures (c < |s.clients| && s.clients[c].closed) || CloseStep(s, t, a).clients[c].inflight == 0 ||
            (a.CloseLast? && s.threads[t].pc.client == c && s.clients[c].inflight > 0)
  {
    hide Inv;
    AtHome(cfg, s, t);
    if a.CloseLast? {
      LastCloseShuts(s, t, c);
    } else {
      RetireClosesIdle(s, t, a, c);
    }
  }

  lemma SafeStep(cfg: Config, s: State, e: Event, t: nat)
    requires Inv(cfg, s) && Safe(s) && Calm(s) && Enabled(cfg, s, e) && Inv(cfg, Apply(cfg, s, e))
    requires t < |Apply(cfg, s, e).threads|
    ensures HolderSafe(Apply(cfg, s, e), Apply(cfg, s, e).threads[t].pc)
  {
    var s' := Apply(cfg, s, e);
    var h := HoldOf(s'.threads[t].pc);
    if h.Some? && h.value.open {
      if t == e.who {
        StepIsPlain(cfg, s, e);
      } else {
        OthersStay(cfg, s, e, t);
      }
      if s'.clients[h.value.client].closed {
        IdleIsUnheld(s', t);
        ClosesIdle(cfg, s, e, h.value.client);
        if e.what == Closes(CloseLast) {
          CalmIsIdle(s, e.who);
        }
      }
    }
  }

  /** If the step gives its thread a client it did not hold, no Release of that client is between its two steps. */
  ghost predicate TakesCalmly(s: State, s': State, t: nat)
    requires t < |s'.threads|
  {
    var h := HoldOf(s'.threads[t].pc);
    h.Some? && (t < |s.threads| ==> HoldOf(s.threads[t].pc) != h) ==>
      forall u :: 0 <= u < |s.threads| && HalfReleased(s.threads[u].pc) ==> s.threads[u].pc.client != h.value.client
  }

  /** Along the run, nobody acquires a client inside the gap of another thread's Release of it. */
  ghost predicate Gapless(cfg: Config, s: State, run: seq<Event>)
    decreases |run|
  {
    run == [] ||
    (WellTyped(s) && Enabled(cfg, s, run[0]) &&
     var s' := Apply(cfg, s, run[0]);
     (run[0].who < |s'.threads| ==> TakesCalmly(s, s', run[0].who)) && Gapless(cfg, s', run[1..]))
  }

  lemma CalmStep(cfg: Config, s: State, e: Event)
    requires Inv(cfg, s) && Calm(s) && Enabled(cfg, s, e) && Inv(cfg, Apply(cfg, s, e))
    requires e.who < |Apply(cfg, s, e).threads| ==> TakesCalmly(s, Apply(cfg, s, e), e.who)
    ensures Calm(Apply(cfg, s, e))
  {
    var s' := Apply(cfg, s, e);
    StepIsPlain(cfg, s, e);
    forall t, u | 0 <= t < |s'.threads| && 0 <= u < |s'.threads| && HalfReleased(s'.threads[u].pc) &&
      HoldOf(s'.threads[t].pc).Some?
      ensures HoldOf(s'.threads[t].pc).value.client != s'.threads[u].pc.client
    {
      IdleIsUnheld(s', t);
      if t != e.who {
        OthersStay(cfg, s, e, t);
      }
      if u != e.who {
        OthersStay(cfg, s, e, u);
      }
    }
  }

  lemma {:induction false} SafeRun(cfg: Config, s: State, run: seq<Event>)
    requires Inv(cfg, s) && Safe(s) && Calm(s) && Exec(cfg, s, run).Some? && Gapless(cfg, s, run)
    ensures Inv(cfg, Exec(cfg, s, run).value) && Safe(Exec(cfg, s, run).value)
    decreases |run|
  {
    if run != [] {
      var s' := Apply(cfg, s, run[0]);
      StepKeeps(cfg, s, run[0]);
      CalmStep(cfg, s, run[0]);
      forall t | 0 <= t < |s'.threads| ensures HolderSafe(s', s'.threads[t].pc) {
        SafeStep(cfg, s, run[0], t);
      }
      SafeRun(cfg, s', run[1..]);
    }
  }

  /** With Release as one step, nothing is left half released. */
  lemma WholeStep(cfg: Config, s: State, e: Event)
    requires !cfg.splitRelease && WellTyped(s) && Whole(s) && Enabled(cfg, s, e)
    ensures Whole(Apply(cfg, s, e))
  {
    forall t | 0 <= t < |Apply(cfg, s, e).threads| ensures !HalfReleased(Apply(cfg, s, e).threads[t].pc) {
      if t == e.who {
        StepIsPlain(cfg, s, e);
      } else {
        OthersStay(cfg, s, e, t);
      }
    }
  }

  lemma {:induction false} WholeIsGapless(cfg: Config, s: State, run: seq<Event>)
    requires !cfg.splitRelease && Whole(s) && Exec(cfg, s, run).Some?
    ensures Gapless(cfg, s, run)
    decreases |run|
  {
    if run != [] {
      WholeStep(cfg, s, run[0]);
      WholeIsGapless(cfg, Apply(cfg, s, run[0]), run[1..]);
    }
  }

  /** When Release is one step, and in every run of the split Release in which nobody acquires a client between another
      thread's decrement and its load of `retired`, a client stays open as long as a holder that took it open holds it;
      hits and builders always take it open. */
  lemma HolderSafety(cfg: Config, run: seq<Event>, s: State, t: nat)
    requires Reaches(cfg, run, s) && (!cfg.splitRelease || Gapless(cfg, Init(), run))
    requires t < |s.threads| && HoldOf(s.threads[t].pc).Some?
    ensures var h := HoldOf(s.threads[t].pc).value;
            h.client < |s.clients| && (h.open || h.source != Wait ==> !s.clients[h.client].closed)
  {
    InitInv(cfg);
    if !cfg.splitRelease {
      WholeIsGapless(cfg, Init(), run);
    }
    SafeRun(cfg, Init(), run);
    assert PcInRange(s, s.threads[t].pc) && ThreadOk(s, s.threads[t]) && HolderSafe(s, s.threads[t].pc);
  }

  /** The event closes an open client that a thread still holds after it. */
  ghost predicate ClosesInUse(s: State, s': State) {
    exists c :: 0 <= c < |s.clients| <= |s'.clients| && !s.clients[c].closed && s'.clients[c].closed &&
                Holders(s', c) != {}
  }

  /** Exactly when an event closes a client in use: when it is the closing half of a Release, and the client has been
      acquired again since the decrement, which Release does not look at again. */
  lemma ClosesInUseExactly(cfg: Config, run: seq<Event>, s: State, e: Event)
    requires Reaches(cfg, run, s) && WellTyped(s) && Enabled(cfg, s, e)
    ensures ClosesInUse(s, Apply(cfg, s, e)) <==>
              e.what == Closes(CloseLast) && s.clients[s.threads[e.who].pc.client].inflight > 0 &&
              !s.clients[s.threads[e.who].pc.client].closed
  {
    Reached(cfg, run, s);
    var s' := Apply(cfg, s, e);
    StepKeeps(cfg, s, e);
    if ClosesInUse(s, s') {
      var c :| 0 <= c < |s.clients| <= |s'.clients| && !s.clients[c].closed && s'.clients[c].closed &&
        Holders(s', c) != {};
      InflightIsCount(s', c);
      ClosesIdle(cfg, s, e, c);
    }
    if e.what == Closes(CloseLast) && s.clients[s.threads[e.who].pc.client].inflight > 0 &&
      !s.clients[s.threads[e.who].pc.client].closed {
      var c := s.threads[e.who].pc.client;
      CloseLastShuts(s, e.who);
      InflightIsCount(s', c);
    }
  }

  lemma CloseLastShuts(s: State, t: nat)
    requires Within(s, t) && CanClose(s.threads[t].pc, CloseLast)
    ensures var s', c := CloseStep(s, t, CloseLast), s.threads[t].pc.client;
            |s'.clients| == |s.clients| && s'.clients[c].closed && s'.clients[c].inflight == s.clients[c].inflight
  {
  }

  // Request accounting

  predicate Admitted(th: Thread) { Requesting(th.pc) }

  lemma LogFacts(th: Thread)
    requires LogOk(th)
    ensures var log := th.log;
            log.starts <= 1 && log.finishes <= log.starts && log.releases <= log.acquires <= 1 &&
            (th.pc.Gone? ==> log.starts == 1 && log.finishes == 1 && log.releases == log.acquires) &&
            (HoldOf(th.pc).Some? <==> log.acquires == log.releases + 1)
  {
  }

  /** `active` is the number of admitted requests that have not left, and each request, wherever it is, has observed its
      start and its finish at most once and released every client it acquired exactly once; a request that is gone has
      done each exactly once. */
  lemma RequestAccounting(cfg: Config, run: seq<Event>, s: State)
    requires Reaches(cfg, run, s)
    ensures s.active == |set t | 0 <= t < |s.threads| && Admitted(s.threads[t])|
    ensures forall t :: 0 <= t < |s.threads| ==>
              var log := s.threads[t].log;
              log.starts <= 1 && log.finishes <= log.starts && log.releases <= log.acquires <= 1 &&
              (s.threads[t].pc.Gone? ==> log.starts == 1 && log.finishes == 1 && log.releases == log.acquires) &&
              (HoldOf(s.threads[t].pc).Some? <==> log.acquires == log.releases + 1)
  {
    Reached(cfg, run, s);
    hide LogOk;
    ActiveCounts(s);
    forall t | 0 <= t < |s.threads| ensures LogOk(s.threads[t]) {
      assert PcInRange(s, s.threads[t].pc) && ThreadOk(s, s.threads[t]);
    }
    forall t | 0 <= t < |s.threads| {
      LogFacts(s.threads[t]);
    }
  }

  lemma ActiveCounts(s: State)
    requires Balanced(s)
    ensures s.active == |set t | 0 <= t < |s.threads| && Admitted(s.threads[t])|
  {
    CounterCounts(s, Active);
    assert Marked(Active, s.threads) == set t | 0 <= t < |s.threads| && Admitted(s.threads[t]);
  }

  // The observer's counters

  /** Nothing between a lock section and its notifications. */
  predicate Settled(pc: Pc) {
    !(pc.Asking? || pc.HitSeen? || pc.JoinSeen? || pc.MissSeen? || pc.Making? || (pc.Built? && pc.built.Some?) ||
      Locked(pc) ||
      pc.Landing? || pc.BuiltSeen? || (pc.EvictSeen? && pc.evicted > 0) || (pc.Swept? && pc.left > 0))
  }

  lemma SettledBooks(s: State)
    requires Balanced(s) && forall t :: 0 <= t < |s.threads| ==> Settled(s.threads[t].pc)
    ensures Counter(s, Lookups) == Counter(s, Builds) == Counter(s, Gauge) == 0
  {
    SettledCounts(s, Lookups);
    SettledCounts(s, Builds);
    NoDebt(s.threads);
  }

  lemma SettledCounts(s: State, m: Measure)
    requires (m.Lookups? || m.Builds?) && forall t :: 0 <= t < |s.threads| ==> Settled(s.threads[t].pc)
    ensures Sum(m, s.threads) == 0
  {
    SumZero(m, s);
  }

  /** When no thread is between a lock section and its notifications: hits plus misses is the number of Gets begun,
      misses is builds plus failed builds, and builds minus evictions is the number of entries, short of those
      Cache.Close removed without telling the observer. */
  lemma ObserverConservation(cfg: Config, run: seq<Event>, s: State)
    requires Reaches(cfg, run, s) && forall t :: 0 <= t < |s.threads| ==> Settled(s.threads[t].pc)
    ensures var n := s.counts;
            n.hits + n.misses == n.gets && n.misses == n.builds + n.failed &&
            n.builds - n.evictions == |s.entries| + n.silent
  {
    Reached(cfg, run, s);
    hide Shape;
    hide NoneForgotten;
    hide Settled;
    SettledBooks(s);
  }

  lemma {:induction false} NoDebt(ths: seq<Thread>)
    requires forall t :: 0 <= t < |ths| ==> Settled(ths[t].pc)
    ensures Sum(Gauge, ths) == 0
  {
    if ths != [] {
      NoDebt(ths[..|ths| - 1]);
    }
  }

  /** A client that Sweep takes out of the cache has no holder then, and was last used before the cutoff. */
  lemma SweepTakesIdle(cfg: Config, run: seq<Event>, s: State, e: Event)
    requires Reaches(cfg, run, s) && WellTyped(s) && Enabled(cfg, s, e) && e.what.Clears? && e.what.clears.Visit?
    requires e.what.clears.key !in Apply(cfg, s, e).entries
    ensures var c := s.entries[e.what.clears.key];
            Holders(s, c) == {} && s.clients[c].lastUsed < s.threads[e.who].pc.loop.cutoff
    ensures Apply(cfg, s, e).threads[e.who].pc.loop.swept == s.threads[e.who].pc.loop.swept + 1
  {
    Reached(cfg, run, s);
    var c := s.entries[e.what.clears.key];
    GetReturnsItsKey(cfg, run, s);
    assert s.clients[c].inflight == |Holders(s, c)|;
  }
}
