/** What every event has in common: whom it moves, which holds it makes, which clients it may close. */
module LifecycleSteps {
  import opened Lifecycle
  import opened LifecycleBooks
  import opened LifecycleInvariant

  /** The event moves thread t, or adds it, and no other thread. */
  ghost predicate Steps(s: State, s': State, t: nat) {
    t < |s'.threads| && (Moves(s, s', t) || (t == |s.threads| && Appends(s, s')))
  }

  /** The stepping thread holds what it held, or a client it has just taken note of. */
  ghost predicate Noted(s: State, s': State, t: nat) {
    t < |s'.threads| &&
    var h := HoldOf(s'.threads[t].pc);
    h.Some? ==> (t < |s.threads| && HoldOf(s.threads[t].pc) == h) ||
                (h.value.client < |s.clients| && h.value.open == !s.clients[h.value.client].closed)
  }

  /** A mover between the two steps of a Release was there already, or has just let go of a client nobody else holds. */
  ghost predicate KeptWhole(cfg: Config, s: State, s': State, t: nat) {
    t < |s'.threads| &&
    var pc' := s'.threads[t].pc;
    HalfReleased(pc') ==>
      (t < |s.threads| && HalfReleased(s.threads[t].pc) && s.threads[t].pc.client == pc'.client) ||
      (cfg.splitRelease && pc'.client < |s'.clients| && s'.clients[pc'.client].inflight == 0)
  }

  /** A closed client stays closed, and a retired one retired. */
  ghost predicate KeepsClosed(s: State, s': State) {
    |s.clients| <= |s'.clients| &&
    forall c :: 0 <= c < |s.clients| ==>
                  (s.clients[c].closed ==> s'.clients[c].closed) && (s.clients[c].retired ==> s'.clients[c].retired)
  }

  ghost predicate ClosesNone(s: State, s': State) {
    forall c :: 0 <= c < |s'.clients| && s'.clients[c].closed ==> c < |s.clients| && s.clients[c].closed
  }

  /** What holds of every event. */
  ghost predicate Plain(cfg: Config, s: State, s': State, t: nat) {
    Steps(s, s', t) && Noted(s, s', t) && KeptWhole(cfg, s, s', t) && KeepsClosed(s, s')
  }

  lemma BeginIsPlain(cfg: Config, s: State, a: Beginning)
    ensures Plain(cfg, s, Begin(s, a), |s.threads|) && ClosesNone(s, Begin(s, a))
  {
  }

  lemma QuietIsPlain(cfg: Config, s: State, e: Event)
    requires WellTyped(s) && Enabled(cfg, s, e) && IsQuiet(e.what)
    ensures Plain(cfg, s, Apply(cfg, s, e), e.who) && ClosesNone(s, Apply(cfg, s, e))
  {
    QuietMoves(cfg, s, e);
    QuietHolds(cfg, s, e);
  }

  /** A quiet step takes no hold and gives none up. */
  predicate SameHold(pc: Pc, pc': Pc) {
    HoldOf(pc') == HoldOf(pc) && (HalfReleased(pc') ==> HalfReleased(pc) && pc.client == pc'.client)
  }

  lemma QuietHolds(cfg: Config, s: State, e: Event)
    requires WellTyped(s) && Enabled(cfg, s, e) && IsQuiet(e.what) && |Apply(cfg, s, e).threads| == |s.threads|
    ensures SameHold(s.threads[e.who].pc, Apply(cfg, s, e).threads[e.who].pc)
  {
    AllWithin(s, e.who);
    hide Within;
    hide PcInRange;
    hide SameHold;
    match e.what
    case Arrives(a) => ArrivalHolds(s, e.who, a);
    case Departs(a) => DepartureHolds(s, e.who, a);
    case Notes(a) => NoticeHolds(s, e.who, a);
    case Tells(a) => ReportHolds(s, e.who, a);
    case Ends(a) => OutcomeHolds(s, e.who, a);
    case Chooses(a) => ChoiceHolds(s, e.who, a);
    case Goes(a) => ProgressHolds(s, e.who, a);
  }

  lemma ArrivalHolds(s: State, t: nat, a: Arrival)
    requires t < |s.threads| && CanArrive(s.threads[t].pc, a)
    ensures t < |Arrive(s, t, a).threads| && SameHold(s.threads[t].pc, Arrive(s, t, a).threads[t].pc)
  {
  }

  lemma DepartureHolds(s: State, t: nat, a: Departure)
    requires t < |s.threads| && CanDepart(s.threads[t].pc, a)
    ensures t < |Depart(s, t, a).threads| && SameHold(s.threads[t].pc, Depart(s, t, a).threads[t].pc)
  {
  }

  lemma NoticeHolds(s: State, t: nat, a: Notice)
    requires t < |s.threads| && CanNote(s.threads[t].pc, a)
    ensures t < |Note(s, t, a).threads| && SameHold(s.threads[t].pc, Note(s, t, a).threads[t].pc)
  {
  }

  lemma ReportHolds(s: State, t: nat, a: Report)
    requires t < |s.threads| && CanReport(s.threads[t].pc, a)
    ensures t < |Tell(s, t, a).threads| && SameHold(s.threads[t].pc, Tell(s, t, a).threads[t].pc)
  {
  }

  lemma OutcomeHolds(s: State, t: nat, a: Outcome)
    requires Within(s, t) && CanEnd(s, s.threads[t].pc, a)
    ensures t < |End(s, t, a).threads| && SameHold(s.threads[t].pc, End(s, t, a).threads[t].pc)
  {
  }

  lemma ChoiceHolds(s: State, t: nat, a: Choice)
    requires Within(s, t) && CanChoose(s, t, a)
    ensures t < |Choose(s, t, a).threads| && SameHold(s.threads[t].pc, Choose(s, t, a).threads[t].pc)
  {
  }

  lemma ProgressHolds(s: State, t: nat, a: Progress)
    requires t < |s.threads| && CanGo(s, s.threads[t].pc, a)
    ensures t < |Go(s, t, a).threads| && SameHold(s.threads[t].pc, Go(s, t, a).threads[t].pc)
  {
  }

  lemma TakingIsPlain(cfg: Config, s: State, t: nat, a: Taking)
    requires Within(s, t) && CanTake(s, t, a)
    ensures Plain(cfg, s, Take(s, t, a), t) && ClosesNone(s, Take(s, t, a))
  {
  }

  lemma BookingIsPlain(cfg: Config, s: State, t: nat, a: Booking)
    requires Within(s, t) && CanBook(s, t, a)
    ensures Plain(cfg, s, Book(s, t, a), t) && ClosesNone(s, Book(s, t, a))
  {
  }

  lemma MakingIsPlain(cfg: Config, s: State, t: nat, a: Making)
    requires Within(s, t) && CanMake(s.threads[t].pc, a)
    ensures Plain(cfg, s, Make(s, t, a), t) && ClosesNone(s, Make(s, t, a))
  {
  }

  lemma InsertingIsPlain(cfg: Config, s: State, t: nat, a: Inserting)
    requires InRange(s) && Within(s, t) && CanInsert(cfg, s, s.threads[t].pc, a)
    ensures Plain(cfg, s, InsertStep(cfg, s, t, a), t) && ClosesNone(s, InsertStep(cfg, s, t, a))
  {
  }

  lemma ClearingIsPlain(cfg: Config, s: State, t: nat, a: Clearing)
    requires InRange(s) && Within(s, t) && CanClear(s, s.threads[t].pc, a)
    ensures Plain(cfg, s, ClearStep(s, t, a), t) && ClosesNone(s, ClearStep(s, t, a))
  {
  }

  lemma LockingIsPlain(cfg: Config, s: State, t: nat, a: Locking)
    requires t < |s.threads| && CanTurn(s, s.threads[t].pc, a)
    ensures Plain(cfg, s, Turn(s, t, a), t) && ClosesNone(s, Turn(s, t, a))
  {
  }

  lemma ClosingIsPlain(cfg: Config, s: State, t: nat, a: Closing)
    requires Within(s, t) && CanClose(s.threads[t].pc, a)
    ensures Plain(cfg, s, CloseStep(s, t, a), t)
  {
  }

  lemma ReleaseIsPlain(cfg: Config, s: State, t: nat)
    requires Within(s, t) && s.threads[t].pc.Releasing?
    ensures Plain(cfg, s, ReleaseStep(cfg, s, t), t)
  {
  }

  /** An event other than the atomic operations of retire and Release closes no client. */
  lemma OthersCloseNone(cfg: Config, s: State, e: Event)
    requires WellTyped(s) && Enabled(cfg, s, e) && !e.what.Closes? && !e.what.Release?
    ensures Plain(cfg, s, Apply(cfg, s, e), e.who) && ClosesNone(s, Apply(cfg, s, e))
  {
    hide Plain;
    hide ClosesNone;
    hide PcInRange;
    if IsQuiet(e.what) {
      QuietIsPlain(cfg, s, e);
    } else if e.what.Begins? {
      BeginIsPlain(cfg, s, e.what.begins);
    } else {
      AllWithin(s, e.who);
      hide Within;
      match e.what
      case Takes(a) => TakingIsPlain(cfg, s, e.who, a);
      case Books(a) => BookingIsPlain(cfg, s, e.who, a);
      case Makes(a) => MakingIsPlain(cfg, s, e.who, a);
      case Inserts(a) => InsertingIsPlain(cfg, s, e.who, a);
      case Clears(a) => ClearingIsPlain(cfg, s, e.who, a);
      case Turns(a) => LockingIsPlain(cfg, s, e.who, a);
    }
  }

  lemma StepIsPlain(cfg: Config, s: State, e: Event)
    requires WellTyped(s) && Enabled(cfg, s, e)
    ensures Plain(cfg, s, Apply(cfg, s, e), e.who)
  {
    hide Plain;
    hide PcInRange;
    if e.what.Closes? || e.what.Release? {
      AllWithin(s, e.who);
      hide Within;
      match e.what
      case Closes(a) => ClosingIsPlain(cfg, s, e.who, a);
      case Release => ReleaseIsPlain(cfg, s, e.who);
    } else {
      OthersCloseNone(cfg, s, e);
    }
  }

  /** An event moves its own thread only. */
  lemma OthersStay(cfg: Config, s: State, e: Event, u: nat)
    requires WellTyped(s) && Enabled(cfg, s, e) && u < |Apply(cfg, s, e).threads| && u != e.who
    ensures u < |s.threads| && Apply(cfg, s, e).threads[u] == s.threads[u]
  {
    hide Apply;
    hide WellTyped;
    StepIsPlain(cfg, s, e);
  }
}
