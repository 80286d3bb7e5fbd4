/** Shutdown: Drain, then Cache.Close, leaves no request running and every client closed once. */
module LifecycleShutdown {
  import opened Lifecycle
  import opened LifecycleBooks
  import opened LifecycleInvariant
  import opened LifecycleSteps
  import opened LifecycleTheorems

  /** The thread has called Drain, and perhaps gone on to Cache.Close. */
  predicate DrainCalled(pc: Pc) {
    pc.Draining? || pc.Drained? || (Locked(pc) && pc.loop.CloseAll?) || pc.Shutdown?
  }

  /** Drain has returned nil to this thread. */
  predicate PastDrain(pc: Pc) {
    (pc.Drained? && pc.ok) || (Locked(pc) && pc.loop.CloseAll? && pc.loop.ok) || (pc.Shutdown? && pc.ok)
  }

  /** No thread has seen `draining` false and is yet to be counted. */
  ghost predicate NoneEntering(s: State) {
    forall t :: 0 <= t < |s.threads| ==> !s.threads[t].pc.Entering?
  }

  /** No request runs, and none can begin. */
  ghost predicate Still(s: State) {
    s.draining && s.active == 0 && NoneEntering(s)
  }

  ghost predicate Quiesced(s: State) {
    forall t :: 0 <= t < |s.threads| ==>
      var pc := s.threads[t].pc; (DrainCalled(pc) ==> s.draining) && (PastDrain(pc) ==> Still(s))
  }

  /** Nothing is cached, nothing is being built, and every client has been closed. */
  ghost predicate Empty(s: State) {
    s.entries == map[] && s.pending == map[] && forall c :: 0 <= c < |s.clients| ==> s.clients[c].closed
  }

  ghost predicate Emptied(s: State) {
    forall t :: 0 <= t < |s.threads| && s.threads[t].pc == Shutdown(true) ==> Empty(s)
  }

  /** When no request is active, every thread is outside the request path. */
  lemma NoneRequesting(s: State, t: nat)
    requires Balanced(s) && s.active == 0 && t < |s.threads|
    ensures !Requesting(s.threads[t].pc)
  {
    Floor(s, Active, t);
  }

  lemma ActiveIsCount(s: State)
    requires Balanced(s)
    ensures s.active >= 0
  {
    assert s.active == Counter(s, Active);
    if s.threads != [] {
      SumFloor(Active, s.threads, 0, 0);
    }
  }

  // Draining stays set, and only requests move `active`

  lemma QuietDrains(cfg: Config, s: State, e: Event)
    requires WellTyped(s) && Enabled(cfg, s, e) && IsQuiet(e.what)
    ensures Apply(cfg, s, e).draining == s.draining
    ensures Apply(cfg, s, e).active == s.active || Requesting(s.threads[e.who].pc) || s.threads[e.who].pc.Entering?
  {
    match e.what
    case Arrives(_) =>
    case Departs(_) =>
    case Notes(_) =>
    case Tells(_) =>
    case Ends(_) =>
    case Chooses(_) =>
    case Goes(_) =>
  }

  lemma OthersDrain(cfg: Config, s: State, e: Event)
    requires WellTyped(s) && Enabled(cfg, s, e) && !IsQuiet(e.what)
    ensures s.draining ==> Apply(cfg, s, e).draining
    ensures Apply(cfg, s, e).active == s.active || (e.what.Begins? && !s.draining)
  {
    match e.what
    case Begins(_) =>
    case Takes(_) =>
    case Books(_) =>
    case Makes(_) =>
    case Inserts(_) =>
    case Clears(_) =>
    case Closes(_) =>
    case Turns(_) =>
    case Release =>
  }

  // Who can be found on the drain's path, or at the gap of admission

  /** A Cache.Close with nothing left to remove. */
  predicate Finished(pc: Pc, ok: bool) { pc.InLoop? && pc.loop.CloseAll? && pc.loop.todo == {} && pc.loop.ok == ok }

  /** The mover was on the drain's path already, or has just called Drain, or just seen it done; only the end of a
      Cache.Close shuts down, and nobody enters once draining. */
  ghost predicate MovesOn(s: State, s': State, t: nat, polls: bool)
    requires t < |s'.threads|
  {
    var pc' := s'.threads[t].pc;
    (pc'.Entering? ==> !s.draining && t == |s.threads|) &&
    (DrainCalled(pc') ==> s'.draining || (t < |s.threads| && DrainCalled(s.threads[t].pc))) &&
    (PastDrain(pc') ==>
     t < |s.threads| && (PastDrain(s.threads[t].pc) || (s.threads[t].pc.Draining? && polls && s.active <= 0))) &&
    (pc'.Shutdown? ==> t < |s.threads| && Finished(s.threads[t].pc, pc'.ok))
  }

  lemma BeginMovesOn(cfg: Config, s: State, a: Beginning)
    requires CanBegin(cfg, s, a)
    ensures |s.threads| < |Begin(s, a).threads| && MovesOn(s, Begin(s, a), |s.threads|, false)
  {
  }

  lemma ArrivalMovesOn(s: State, t: nat, a: Arrival)
    requires t < |s.threads| && CanArrive(s.threads[t].pc, a)
    ensures t < |Arrive(s, t, a).threads| && MovesOn(s, Arrive(s, t, a), t, false)
  {
  }

  lemma DepartureMovesOn(s: State, t: nat, a: Departure)
    requires t < |s.threads| && CanDepart(s.threads[t].pc, a)
    ensures t < |Depart(s, t, a).threads| && MovesOn(s, Depart(s, t, a), t, false)
  {
  }

  lemma NoticeMovesOn(s: State, t: nat, a: Notice)
    requires t < |s.threads| && CanNote(s.threads[t].pc, a)
    ensures t < |Note(s, t, a).threads| && MovesOn(s, Note(s, t, a), t, false)
  {
  }

  lemma ReportMovesOn(s: State, t: nat, a: Report)
    requires t < |s.threads| && CanReport(s.threads[t].pc, a)
    ensures t < |Tell(s, t, a).threads| && MovesOn(s, Tell(s, t, a), t, false)
  {
  }

  lemma OutcomeMovesOn(s: State, t: nat, a: Outcome)
    requires Within(s, t) && CanEnd(s, s.threads[t].pc, a)
    ensures t < |End(s, t, a).threads| && MovesOn(s, End(s, t, a), t, false)
  {
  }

  lemma ChoiceMovesOn(s: State, t: nat, a: Choice)
    requires Within(s, t) && CanChoose(s, t, a)
    ensures t < |Choose(s, t, a).threads| && MovesOn(s, Choose(s, t, a), t, false)
  {
  }

  lemma ProgressMovesOn(s: State, t: nat, a: Progress)
    requires t < |s.threads| && CanGo(s, s.threads[t].pc, a)
    ensures t < |Go(s, t, a).threads| && MovesOn(s, Go(s, t, a), t, a.Poll?)
  {
  }

  lemma TakingMovesOn(s: State, t: nat, a: Taking)
    requires Within(s, t) && CanTake(s, t, a)
    ensures t < |Take(s, t, a).threads| && MovesOn(s, Take(s, t, a), t, false)
  {
  }

  lemma BookingMovesOn(s: State, t: nat, a: Booking)
    requires Within(s, t) && CanBook(s, t, a)
    ensures t < |Book(s, t, a).threads| && MovesOn(s, Book(s, t, a), t, false)
  {
  }

  lemma MakingMovesOn(s: State, t: nat, a: Making)
    requires Within(s, t) && CanMake(s.threads[t].pc, a)
    ensures t < |Make(s, t, a).threads| && MovesOn(s, Make(s, t, a), t, false)
  {
  }

  lemma InsertingMovesOn(cfg: Config, s: State, t: nat, a: Inserting)
    requires InRange(s) && Within(s, t) && CanInsert(cfg, s, s.threads[t].pc, a)
    ensures t < |InsertStep(cfg, s, t, a).threads| && MovesOn(s, InsertStep(cfg, s, t, a), t, false)
  {
  }

  lemma ClearingMovesOn(s: State, t: nat, a: Clearing)
    requires InRange(s) && Within(s, t) && CanClear(s, s.threads[t].pc, a)
    ensures t < |ClearStep(s, t, a).threads| && MovesOn(s, ClearStep(s, t, a), t, false)
  {
  }

  lemma ClosingMovesOn(s: State, t: nat, a: Closing)
    requires Within(s, t) && CanClose(s.threads[t].pc, a)
    ensures t < |CloseStep(s, t, a).threads| && MovesOn(s, CloseStep(s, t, a), t, false)
  {
  }

  lemma LockingMovesOn(s: State, t: nat, a: Locking)
    requires t < |s.threads| && CanTurn(s, s.threads[t].pc, a)
    ensures t < |Turn(s, t, a).threads| && MovesOn(s, Turn(s, t, a), t, false)
  {
  }

  lemma ReleaseMovesOn(cfg: Config, s: State, t: nat)
    requires Within(s, t) && s.threads[t].pc.Releasing?
    ensures t < |ReleaseStep(cfg, s, t).threads| && MovesOn(s, ReleaseStep(cfg, s, t), t, false)
  {
  }

  lemma QuietMovesOn(cfg: Config, s: State, e: Event)
    requires WellTyped(s) && Enabled(cfg, s, e) && IsQuiet(e.what) && e.who < |Apply(cfg, s, e).threads|
    ensures MovesOn(s, Apply(cfg, s, e), e.who, e.what == Goes(Poll))
  {
    hide MovesOn;
    hide PcInRange;
    AllWithin(s, e.who);
    hide Within;
    match e.what
    case Arrives(a) => ArrivalMovesOn(s, e.who, a);
    case Departs(a) => DepartureMovesOn(s, e.who, a);
    case Notes(a) => NoticeMovesOn(s, e.who, a);
    case Tells(a) => ReportMovesOn(s, e.who, a);
    case Ends(a) => OutcomeMovesOn(s, e.who, a);
    case Chooses(a) => ChoiceMovesOn(s, e.who, a);
    case Goes(a) => ProgressMovesOn(s, e.who, a);
  }

  lemma StepMovesOn(cfg: Config, s: State, e: Event)
    requires WellTyped(s) && Enabled(cfg, s, e) && e.who < |Apply(cfg, s, e).threads|
    ensures MovesOn(s, Apply(cfg, s, e), e.who, e.what == Goes(Poll))
  {
    hide MovesOn;
    hide PcInRange;
    if IsQuiet(e.what) {
      QuietMovesOn(cfg, s, e);
    } else if e.what.Begins? {
      BeginMovesOn(cfg, s, e.what.begins);
    } else {
      AllWithin(s, e.who);
      hide Within;
      match e.what
      case Takes(a) => TakingMovesOn(s, e.who, a);
      case Books(a) => BookingMovesOn(s, e.who, a);
      case Makes(a) => MakingMovesOn(s, e.who, a);
      case Inserts(a) => InsertingMovesOn(cfg, s, e.who, a);
      case Clears(a) => ClearingMovesOn(s, e.who, a);
      case Closes(a) => ClosingMovesOn(s, e.who, a);
      case Turns(a) => LockingMovesOn(s, e.who, a);
      case Release => ReleaseMovesOn(cfg, s, e.who);
    }
  }

  /** Once no request runs and none can begin, no step changes that. */
  lemma StaysStill(cfg: Config, s: State, e: Event)
    requires Inv(cfg, s) && Still(s) && Enabled(cfg, s, e)
    ensures Still(Apply(cfg, s, e))
  {
    var s' := Apply(cfg, s, e);
    if IsQuiet(e.what) {
      QuietDrains(cfg, s, e);
      NoneRequesting(s, e.who);
    } else {
      OthersDrain(cfg, s, e);
    }
    forall t | 0 <= t < |s'.threads| ensures !s'.threads[t].pc.Entering? {
      if t != e.who {
        OthersStay(cfg, s, e, t);
      } else {
        StepMovesOn(cfg, s, e);
      }
    }
  }

  lemma DrainingStays(cfg: Config, s: State, e: Event)
    requires WellTyped(s) && Enabled(cfg, s, e) && s.draining
    ensures Apply(cfg, s, e).draining
  {
    if IsQuiet(e.what) {
      QuietDrains(cfg, s, e);
    } else {
      OthersDrain(cfg, s, e);
    }
  }

  /** Drain returns nil when no request is active, so that nothing runs from then on if none is entering. */
  lemma PollStills(cfg: Config, s: State, e: Event)
    requires Inv(cfg, s) && Enabled(cfg, s, e) && e.what == Goes(Poll) && s.draining && NoneEntering(s)
    ensures Still(Apply(cfg, s, e))
  {
    ActiveIsCount(s);
    StaysStill(cfg, s, e);
  }

  lemma QuiescedStep(cfg: Config, s: State, e: Event)
    requires Inv(cfg, s) && Quiesced(s) && Enabled(cfg, s, e) && (e.what == Goes(Poll) ==> NoneEntering(s))
    ensures Quiesced(Apply(cfg, s, e))
  {
    var s' := Apply(cfg, s, e);
    forall t | 0 <= t < |s'.threads|
      ensures var pc := s'.threads[t].pc; (DrainCalled(pc) ==> s'.draining) && (PastDrain(pc) ==> Still(s'))
    {
      if t != e.who {
        OthersStay(cfg, s, e, t);
      } else {
        StepMovesOn(cfg, s, e);
      }
      if s.draining {
        DrainingStays(cfg, s, e);
      }
      if PastDrain(s'.threads[t].pc) {
        if PastDrain(s.threads[t].pc) {
          StaysStill(cfg, s, e);
        } else {
          PollStills(cfg, s, e);
        }
      }
    }
  }

  /** Along the run, Drain returns nil only when no thread is between the draining check and the count. */
  ghost predicate Punctual(cfg: Config, s: State, run: seq<Event>)
    decreases |run|
  {
    run == [] ||
    (WellTyped(s) && Enabled(cfg, s, run[0]) && (run[0].what == Goes(Poll) ==> NoneEntering(s)) &&
     Punctual(cfg, Apply(cfg, s, run[0]), run[1..]))
  }

  lemma NobodyEnters(cfg: Config, s: State, e: Event)
    requires !cfg.splitAdmission && WellTyped(s) && Enabled(cfg, s, e) && NoneEntering(s)
    ensures NoneEntering(Apply(cfg, s, e))
  {
    var s' := Apply(cfg, s, e);
    forall t | 0 <= t < |s'.threads| ensures !s'.threads[t].pc.Entering? {
      if t != e.who {
        OthersStay(cfg, s, e, t);
      } else {
        StepMovesOn(cfg, s, e);
      }
    }
  }

  /** With admission in one step, nobody is ever there. */
  lemma {:induction false} AtomicIsPunctual(cfg: Config, s: State, run: seq<Event>)
    requires !cfg.splitAdmission && NoneEntering(s) && Exec(cfg, s, run).Some?
    ensures Punctual(cfg, s, run)
    decreases |run|
  {
    if run != [] {
      NobodyEnters(cfg, s, run[0]);
      AtomicIsPunctual(cfg, Apply(cfg, s, run[0]), run[1..]);
    }
  }

  // Emptying

  /** No request runs, and no lock holder is busy with a client. */
  ghost predicate Outside(s: State) {
    forall t :: 0 <= t < |s.threads| ==> var pc := s.threads[t].pc; !Requesting(pc) && (Locked(pc) ==> pc.InLoop?)
  }

  lemma EndIsOutside(cfg: Config, s: State, t: nat)
    requires Inv(cfg, s) && s.active == 0 && t < |s.threads| && Finished(s.threads[t].pc, true)
    ensures Outside(s) && s.entries == map[]
  {
    forall u | 0 <= u < |s.threads| ensures !Requesting(s.threads[u].pc) && (Locked(s.threads[u].pc) ==> u == t) {
      NoneRequesting(s, u);
    }
    assert PcInRange(s, s.threads[t].pc) && ThreadOk(s, s.threads[t]);
    assert s.entries.Keys == {};
  }

  lemma NothingPending(s: State, k: Key)
    requires Balanced(s) && Outside(s)
    ensures k !in s.pending
  {
    SumZero(Builders(k), s);
    assert Counter(s, Builders(k)) == 0;
  }

  /** Whatever is not cached is retired, and whatever is retired and idle is closed or owed a close. */
  lemma UnattendedIsClosed(s: State, c: ClientId)
    requires Balanced(s) && NoneForgotten(s) && c < |s.clients| && s.entries == map[] && Outside(s)
    ensures s.clients[c].closed
  {
    SumZero(Inflight(c), s);
    SumZero(Unplaced(c), s);
    SumZero(Owing(c), s);
    assert Counter(s, Inflight(c)) == 0 && Counter(s, Unplaced(c)) == 0;
  }

  /** At the end of a Close that followed a clean Drain, everything is closed: nobody is left to attend to a client. */
  lemma ClosingEmpties(cfg: Config, s: State, t: nat)
    requires Inv(cfg, s) && s.active == 0 && t < |s.threads| && Finished(s.threads[t].pc, true)
    ensures Empty(s)
  {
    EndIsOutside(cfg, s, t);
    forall k ensures k !in s.pending {
      NothingPending(s, k);
    }
    forall c | 0 <= c < |s.clients| ensures s.clients[c].closed {
      UnattendedIsClosed(s, c);
    }
  }

  /** Nothing brings a client, an entry or a flight back once no request can run. */
  lemma EmptyStays(cfg: Config, s: State, e: Event)
    requires Inv(cfg, s) && Still(s) && Empty(s) && Enabled(cfg, s, e)
    ensures Empty(Apply(cfg, s, e))
  {
    if e.who < |s.threads| {
      NoneRequesting(s, e.who);
    }
    if IsQuiet(e.what) {
      QuietMoves(cfg, s, e);
    } else {
      match e.what
      case Begins(_) =>
      case Takes(_) =>
      case Books(_) =>
      case Makes(_) =>
      case Inserts(_) =>
      case Clears(_) =>
      case Closes(_) =>
      case Turns(_) =>
      case Release =>
    }
  }

  lemma EmptiedStep(cfg: Config, s: State, e: Event)
    requires Inv(cfg, s) && Quiesced(s) && Emptied(s) && Enabled(cfg, s, e)
    ensures Emptied(Apply(cfg, s, e))
  {
    var s' := Apply(cfg, s, e);
    forall t | 0 <= t < |s'.threads| && s'.threads[t].pc == Shutdown(true) ensures Empty(s') {
      if t != e.who {
        OthersStay(cfg, s, e, t);
      } else {
        StepMovesOn(cfg, s, e);
        ClosingEmpties(cfg, s, t);
      }
      assert PastDrain(s.threads[t].pc);
      EmptyStays(cfg, s, e);
    }
  }

  lemma {:induction false} EmptiedRun(cfg: Config, s: State, run: seq<Event>)
    requires Inv(cfg, s) && Quiesced(s) && Emptied(s) && Exec(cfg, s, run).Some? && Punctual(cfg, s, run)
    ensures Quiesced(Exec(cfg, s, run).value) && Emptied(Exec(cfg, s, run).value)
    decreases |run|
  {
    if run != [] {
      StepKeeps(cfg, s, run[0]);
      QuiescedStep(cfg, s, run[0]);
      EmptiedStep(cfg, s, run[0]);
      EmptiedRun(cfg, Apply(cfg, s, run[0]), run[1..]);
    }
  }

  lemma NobodyLeft(s: State)
    requires Balanced(s) && s.active == 0
    ensures forall u :: 0 <= u < |s.threads| ==> !Requesting(s.threads[u].pc)
    ensures forall c :: 0 <= c < |s.clients| ==> s.clients[c].inflight == 0
  {
    forall u | 0 <= u < |s.threads| ensures !Requesting(s.threads[u].pc) {
      NoneRequesting(s, u);
    }
    forall c | 0 <= c < |s.clients| ensures s.clients[c].inflight == 0 {
      SumZero(Inflight(c), s);
      assert Counter(s, Inflight(c)) == 0;
    }
  }

  /** With admission in one step, or in the source's two whenever no request stands between them as Drain returns, and
      with Release in one step or in two: once Drain has returned nil and the Cache.Close after it has finished, no
      request is active, nothing is cached or being built, and every client ever built has been closed exactly once. */
  lemma ShutdownTheorem(cfg: Config, run: seq<Event>, s: State, t: nat)
    requires Reaches(cfg, run, s) && (!cfg.splitAdmission || Punctual(cfg, Init(), run))
    requires t < |s.threads| && s.threads[t].pc == Shutdown(true)
    ensures s.active == 0 && forall u :: 0 <= u < |s.threads| ==> !Requesting(s.threads[u].pc)
    ensures s.entries == map[] && s.pending == map[]
    ensures forall c :: 0 <= c < |s.clients| ==>
              s.clients[c].closed && s.clients[c].closes == 1 && s.clients[c].inflight == 0
  {
    Reached(cfg, run, s);
    InitInv(cfg);
    if !cfg.splitAdmission {
      AtomicIsPunctual(cfg, Init(), run);
    }
    EmptiedRun(cfg, Init(), run);
    assert PastDrain(s.threads[t].pc);
    NobodyLeft(s);
  }

  // Exactly when Drain's nil is final

  lemma {:induction false} StillRun(cfg: Config, s: State, run: seq<Event>)
    requires Inv(cfg, s) && Still(s) && Exec(cfg, s, run).Some?
    ensures Exec(cfg, s, run).value.active == 0
    decreases |run|
  {
    if run != [] {
      StepKeeps(cfg, s, run[0]);
      StaysStill(cfg, s, run[0]);
      StillRun(cfg, Apply(cfg, s, run[0]), run[1..]);
    }
  }

  /** Some continuation of s has a request active. */
  ghost predicate MayRun(cfg: Config, s: State) {
    exists run :: Exec(cfg, s, run).Some? && Exec(cfg, s, run).value.active > 0
  }

  lemma {:induction false} CalledDrains(cfg: Config, s: State, run: seq<Event>)
    requires Inv(cfg, s) && Exec(cfg, s, run).Some?
    requires forall t :: 0 <= t < |s.threads| && DrainCalled(s.threads[t].pc) ==> s.draining
    ensures var s' := Exec(cfg, s, run).value;
            forall t :: 0 <= t < |s'.threads| && DrainCalled(s'.threads[t].pc) ==> s'.draining
    decreases |run|
  {
    if run != [] {
      var e, s' := run[0], Apply(cfg, s, run[0]);
      StepKeeps(cfg, s, e);
      if s.draining {
        DrainingStays(cfg, s, e);
      }
      forall t | 0 <= t < |s'.threads| && DrainCalled(s'.threads[t].pc) ensures s'.draining {
        if t != e.who {
          OthersStay(cfg, s, e, t);
        } else {
          StepMovesOn(cfg, s, e);
        }
      }
      CalledDrains(cfg, s', run[1..]);
    }
  }

  lemma EnteringRuns(cfg: Config, s: State, t: nat)
    requires Inv(cfg, s) && t < |s.threads| && s.threads[t].pc.Entering?
    ensures MayRun(cfg, s)
  {
    var e := Event(t, Arrives(Enter));
    ActiveIsCount(s);
    OneStep(cfg, s, e);
  }

  /** When Drain returns nil, a request may still run afterwards exactly when some thread stands between the draining
      check and its count. */
  lemma DrainIsFinalExactly(cfg: Config, run: seq<Event>, s: State, e: Event)
    requires Reaches(cfg, run, s) && WellTyped(s) && Enabled(cfg, s, e) && e.what == Goes(Poll)
    ensures MayRun(cfg, Apply(cfg, s, e)) <==> !NoneEntering(s)
  {
    var s' := Apply(cfg, s, e);
    Reached(cfg, run, s);
    StepKeeps(cfg, s, e);
    InitInv(cfg);
    CalledDrains(cfg, Init(), run);
    if NoneEntering(s) {
      assert DrainCalled(s.threads[e.who].pc);
      PollStills(cfg, s, e);
      forall more | Exec(cfg, s', more).Some? ensures Exec(cfg, s', more).value.active == 0 {
        StillRun(cfg, s', more);
      }
    } else {
      var t :| 0 <= t < |s.threads| && s.threads[t].pc.Entering?;
      EnteringRuns(cfg, s', t);
    }
  }
}
