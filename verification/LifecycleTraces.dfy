/** Three runs that show why the claims of LifecycleTheorems and LifecycleShutdown are stated at the granularity they
    are: each is a run of the model that takes the source's two atomic steps apart, or a waiter's late acquisition. */
module LifecycleTraces {
  import opened Options
  import opened Lifecycle
  import opened LifecycleTheorems

  lemma {:induction false} Append(cfg: Config, s: State, run: seq<Event>, e: Event)
    requires Exec(cfg, s, run).Some? && WellTyped(Exec(cfg, s, run).value) && Enabled(cfg, Exec(cfg, s, run).value, e)
    ensures Exec(cfg, s, run + [e]) == Some(Apply(cfg, Exec(cfg, s, run).value, e))
    decreases |run|
  {
    if run == [] {
      OneStep(cfg, s, e);
      assert [] + [e] == [e];
    } else {
      Append(cfg, Apply(cfg, s, run[0]), run[1..], e);
      assert (run + [e])[1..] == run[1..] + [e];
    }
  }

  /** One more event of a run. */
  lemma Then(cfg: Config, run: seq<Event>, s: State, e: Event) returns (run': seq<Event>, s': State)
    requires Reaches(cfg, run, s) && WellTyped(s) && Enabled(cfg, s, e)
    ensures Reaches(cfg, run', s') && s' == Apply(cfg, s, e) && WellTyped(s')
  {
    Append(cfg, Init(), run, e);
    run', s' := run + [e], Apply(cfg, s, e);
    Reached(cfg, run', s');
  }

  function Asked(pc: Pc, key: Key): Thread { Thread(pc, key, Log(1, 0, 0, 0)) }
  function Got(pc: Pc, key: Key): Thread { Thread(pc, key, Log(1, 0, 1, 0)) }

  /** A request has been admitted and is about to ask for a client. */
  lemma RequestBegins(cfg: Config) returns (run: seq<Event>, s: State)
    requires cfg.max == 1 && !cfg.splitAdmission
    ensures Reaches(cfg, run, s) && WellTyped(s)
    ensures s == State([Thread(Resolving, "", Log(1, 0, 0, 0))], [], [], map[], map[], None, 1, false,
                       Counts(0, 0, 0, 0, 0, 0, 0))
  {
    run, s := [], Init();
    run, s := Then(cfg, run, s, Event(0, Begins(Admit)));
    run, s := Then(cfg, run, s, Event(0, Arrives(ObserveStart)));
  }

  /** A request for "a" has registered its flight and is about to build. */
  lemma BuildBegins(cfg: Config) returns (run: seq<Event>, s: State)
    requires cfg.max == 1 && !cfg.splitAdmission
    ensures Reaches(cfg, run, s) && WellTyped(s)
    ensures s == State([Asked(Pc.Making(0), "a")], [], [Flight("a", false, None)], map[], map["a" := 0], None, 1, false,
                       Counts(0, 1, 0, 0, 1, 0, 0))
  {
    run, s := RequestBegins(cfg);
    run, s := Then(cfg, run, s, Event(0, Arrives(Ask("a"))));
    run, s := Then(cfg, run, s, Event(0, Books(LookupMiss)));
    run, s := Then(cfg, run, s, Event(0, Notes(ObserveMiss)));
  }

  /** That request builds its client and takes the lock. */
  lemma Returns(cfg: Config, run0: seq<Event>, s0: State) returns (run: seq<Event>, s: State)
    requires Reaches(cfg, run0, s0) && WellTyped(s0) && s0.threads != []
    requires s0.threads[0] == Asked(Pc.Making(0), "a") && s0.lock == None && s0.clients == [] &&
             s0.flights == [Flight("a", false, None)]
    requires s0.entries == map[] && s0.pending == map["a" := 0]
    ensures Reaches(cfg, run, s) && WellTyped(s)
    ensures s == s0.(threads := s0.threads[0 := Asked(InLoop(Insert(0, 0, 0)), "a")],
                     clients := [Client("a", 0, 0, false, false, 0)], pending := map[], lock := Some(0))
  {
    run, s := Then(cfg, run0, s0, Event(0, Makes(BuildOk)));
    run, s := Then(cfg, run, s, Event(0, Books(Return)));
  }

  /** And stores it. */
  lemma Publishes(cfg: Config, run0: seq<Event>, s0: State) returns (run: seq<Event>, s: State)
    requires cfg.max == 1 && Reaches(cfg, run0, s0) && WellTyped(s0) && s0.threads != []
    requires s0.threads[0] == Asked(Pc.Making(0), "a") && s0.lock == None && s0.clients == [] &&
             s0.flights == [Flight("a", false, None)]
    requires s0.entries == map[] && s0.pending == map["a" := 0]
    ensures Reaches(cfg, run, s) && WellTyped(s)
    ensures s == s0.(threads := s0.threads[0 := Got(Landing(0, Some(Hold(0, Build, true)), 0), "a")],
                     clients := [Client("a", 1, 1, false, false, 0)], entries := map["a" := 0], pending := map[])
  {
    run, s := Returns(cfg, run0, s0);
    run, s := Then(cfg, run, s, Event(0, Inserts(Store(1))));
  }

  /** It lands the flight and leaves Get. */
  lemma HandsOver(cfg: Config, run0: seq<Event>, s0: State) returns (run: seq<Event>, s: State)
    requires Reaches(cfg, run0, s0) && WellTyped(s0) && s0.threads != [] && s0.flights == [Flight("a", false, None)]
    requires s0.threads[0] == Got(Landing(0, Some(Hold(0, Build, true)), 0), "a")
    ensures Reaches(cfg, run, s) && WellTyped(s)
    ensures s == s0.(threads := s0.threads[0 := Got(Holding(Hold(0, Build, true)), "a")],
                     flights := [Flight("a", true, Some(0))],
                     counts := s0.counts.(builds := s0.counts.builds + 1))
  {
    run, s := Then(cfg, run0, s0, Event(0, Makes(Land)));
    run, s := Then(cfg, run, s, Event(0, Tells(ObserveBuilt)));
    run, s := Then(cfg, run, s, Event(0, Ends(HandOver)));
  }

  // A waiter that receives a closed client

  lemma WaiterAsks(cfg: Config) returns (run: seq<Event>, s: State)
    requires cfg.max == 1 && !cfg.splitAdmission
    ensures Reaches(cfg, run, s) && WellTyped(s)
    ensures s == State([Asked(Pc.Making(0), "a"), Asked(Asking, "a")], [], [Flight("a", false, None)], map[],
                       map["a" := 0],
                       None, 2, false, Counts(0, 1, 0, 0, 2, 0, 0))
  {
    run, s := BuildBegins(cfg);
    run, s := Then(cfg, run, s, Event(1, Begins(Admit)));
    run, s := Then(cfg, run, s, Event(1, Arrives(ObserveStart)));
    run, s := Then(cfg, run, s, Event(1, Arrives(Ask("a"))));
  }

  lemma WaiterWaits(cfg: Config) returns (run: seq<Event>, s: State)
    requires cfg.max == 1 && !cfg.splitAdmission
    ensures Reaches(cfg, run, s) && WellTyped(s)
    ensures s == State([Asked(Pc.Making(0), "a"), Asked(Waiting(0), "a")], [], [Flight("a", false, None)], map[],
                       map["a" := 0],
                       None, 2, false, Counts(1, 1, 0, 0, 2, 0, 0))
  {
    run, s := WaiterAsks(cfg);
    run, s := Then(cfg, run, s, Event(1, Chooses(LookupJoin)));
    run, s := Then(cfg, run, s, Event(1, Notes(ObserveJoin)));
  }

  lemma BuilderGoesOn(cfg: Config) returns (run: seq<Event>, s: State)
    requires cfg.max == 1 && !cfg.splitAdmission
    ensures Reaches(cfg, run, s) && WellTyped(s)
    ensures s == State([Got(Holding(Hold(0, Build, true)), "a"), Asked(Waiting(0), "a")],
                       [Client("a", 1, 1, false, false, 0)],
                       [Flight("a", true, Some(0))], map["a" := 0], map[], None, 2, false, Counts(1, 1, 1, 0, 2, 0, 0))
  {
    run, s := WaiterWaits(cfg);
    run, s := Publishes(cfg, run, s);
    run, s := HandsOver(cfg, run, s);
  }

  lemma BuilderLeaves(cfg: Config) returns (run: seq<Event>, s: State)
    requires cfg.max == 1 && !cfg.splitAdmission && !cfg.splitRelease
    ensures Reaches(cfg, run, s) && WellTyped(s)
    ensures s == State([Thread(Finishing, "a", Log(1, 0, 1, 1)), Asked(Waiting(0), "a")],
                       [Client("a", 0, 1, false, false, 0)],
                       [Flight("a", true, Some(0))], map["a" := 0], map[], None, 2, false, Counts(1, 1, 1, 0, 2, 0, 0))
  {
    run, s := BuilderGoesOn(cfg);
    run, s := Then(cfg, run, s, Event(0, Goes(RoundTrip(false))));
    run, s := Then(cfg, run, s, Event(0, Release));
  }

  lemma SweepBegins(cfg: Config) returns (run: seq<Event>, s: State)
    requires cfg.max == 1 && !cfg.splitAdmission && !cfg.splitRelease
    ensures Reaches(cfg, run, s) && WellTyped(s)
    ensures s == State([Thread(Finishing, "a", Log(1, 0, 1, 1)), Asked(Waiting(0), "a"),
                        Thread(Retiring(0, Sweep(5, {}, 1)), "", Log(0, 0, 0, 0))],
                       [Client("a", 0, 1, false, false, 0)], [Flight("a", true, Some(0))], map[], map[], Some(2), 2,
                       false,
                       Counts(1, 1, 1, 0, 2, 0, 0))
  {
    run, s := BuilderLeaves(cfg);
    run, s := Then(cfg, run, s, Event(2, Begins(StartSweep(5))));
    run, s := Then(cfg, run, s, Event(2, Clears(Visit("a"))));
  }

  lemma SweepCloses(cfg: Config) returns (run: seq<Event>, s: State)
    requires cfg.max == 1 && !cfg.splitAdmission && !cfg.splitRelease
    ensures Reaches(cfg, run, s) && WellTyped(s)
    ensures s == State([Thread(Finishing, "a", Log(1, 0, 1, 1)), Asked(Waiting(0), "a"),
                        Thread(InLoop(Sweep(5, {}, 1)), "", Log(0, 0, 0, 0))],
                       [Client("a", 0, 1, true, true, 1)], [Flight("a", true, Some(0))], map[], map[], Some(2), 2,
                       false,
                       Counts(1, 1, 1, 0, 2, 0, 0))
  {
    run, s := SweepBegins(cfg);
    run, s := Then(cfg, run, s, Event(2, Closes(Retire)));
    run, s := Then(cfg, run, s, Event(2, Chooses(CheckIdle)));
    run, s := Then(cfg, run, s, Event(2, Closes(CloseVictim)));
  }

  /** A waiter takes its client after the builder has published it and unlocked; by then a sweep may have retired and
      closed it, Release being one step or not. */
  lemma WaiterMayGetClosedClient(cfg: Config)
    requires cfg == Config(1, false, false)
    ensures exists run, s, t :: Reaches(cfg, run, s) && 0 <= t < |s.threads| && s.threads[t].pc.Holding? &&
              var h := s.threads[t].pc.hold; h.source == Wait && h.client < |s.clients| && s.clients[h.client].closed
  {
    var run, s := SweepCloses(cfg);
    run, s := Then(cfg, run, s, Event(2, Turns(EndSweep)));
    run, s := Then(cfg, run, s, Event(1, Takes(Share(6))));
    assert s.threads[1].pc.Holding?;
  }

  // A holder whose client is closed by a Release caught between its two steps

  lemma FirstHolder(cfg: Config) returns (run: seq<Event>, s: State)
    requires cfg.max == 1 && !cfg.splitAdmission
    ensures Reaches(cfg, run, s) && WellTyped(s)
    ensures s == State([Got(Holding(Hold(0, Build, true)), "a")], [Client("a", 1, 1, false, false, 0)],
                       [Flight("a", true, Some(0))], map["a" := 0], map[], None, 1, false, Counts(0, 1, 1, 0, 1, 0, 0))
  {
    run, s := BuildBegins(cfg);
    run, s := Publishes(cfg, run, s);
    run, s := HandsOver(cfg, run, s);
  }

  function Paused(): Thread { Thread(LastLook(0), "a", Log(1, 0, 1, 1)) }
  function User(): Thread { Got(HitSeen(Hold(0, Hit, true)), "a") }

  /** The first holder is between its decrement and its load of `retired`. */
  lemma FirstPauses(cfg: Config) returns (run: seq<Event>, s: State)
    requires cfg == Config(1, true, false)
    ensures Reaches(cfg, run, s) && WellTyped(s)
    ensures s == State([Paused()], [Client("a", 0, 1, false, false, 0)],
                       [Flight("a", true, Some(0))], map["a" := 0], map[], None, 1, false, Counts(0, 1, 1, 0, 1, 0, 0))
  {
    run, s := FirstHolder(cfg);
    run, s := Then(cfg, run, s, Event(0, Goes(RoundTrip(false))));
    run, s := Then(cfg, run, s, Event(0, Release));
  }

  /** There a second request hits the client. */
  lemma SecondHolder(cfg: Config) returns (run: seq<Event>, s: State)
    requires cfg == Config(1, true, false)
    ensures Reaches(cfg, run, s) && WellTyped(s)
    ensures s == State([Paused(), User()], [Client("a", 1, 2, false, false, 0)],
                       [Flight("a", true, Some(0))], map["a" := 0], map[], None, 2, false, Counts(0, 1, 1, 0, 2, 0, 0))
  {
    run, s := FirstPauses(cfg);
    run, s := Then(cfg, run, s, Event(1, Begins(Admit)));
    run, s := Then(cfg, run, s, Event(1, Arrives(ObserveStart)));
    run, s := Then(cfg, run, s, Event(1, Arrives(Ask("a"))));
    run, s := Then(cfg, run, s, Event(1, Takes(LookupHit(2))));
  }

  /** A third request asks for another key. */
  lemma ThirdAsks(cfg: Config) returns (run: seq<Event>, s: State)
    requires cfg == Config(1, true, false)
    ensures Reaches(cfg, run, s) && WellTyped(s)
    ensures s == State([Paused(), User(), Asked(Asking, "b")], [Client("a", 1, 2, false, false, 0)],
                       [Flight("a", true, Some(0))], map["a" := 0], map[], None, 3, false, Counts(0, 1, 1, 0, 3, 0, 0))
  {
    run, s := SecondHolder(cfg);
    run, s := Then(cfg, run, s, Event(2, Begins(Admit)));
    run, s := Then(cfg, run, s, Event(2, Arrives(ObserveStart)));
    run, s := Then(cfg, run, s, Event(2, Arrives(Ask("b"))));
  }

  /** And builds for it. */
  lemma ThirdBuilds(cfg: Config) returns (run: seq<Event>, s: State)
    requires cfg == Config(1, true, false)
    ensures Reaches(cfg, run, s) && WellTyped(s)
    ensures s == State([Paused(), User(), Asked(Pc.Making(1), "b")], [Client("a", 1, 2, false, false, 0)],
                       [Flight("a", true, Some(0)), Flight("b", false, None)], map["a" := 0], map["b" := 1], None, 3,
                       false,
                       Counts(0, 2, 1, 0, 3, 0, 0))
  {
    run, s := ThirdAsks(cfg);
    run, s := Then(cfg, run, s, Event(2, Books(LookupMiss)));
    run, s := Then(cfg, run, s, Event(2, Notes(ObserveMiss)));
  }

  lemma ThirdStores(cfg: Config) returns (run: seq<Event>, s: State)
    requires cfg == Config(1, true, false)
    ensures Reaches(cfg, run, s) && WellTyped(s)
    ensures s == State([Paused(), User(), Asked(InLoop(Insert(1, 1, 0)), "b")],
                       [Client("a", 1, 2, false, false, 0), Client("b", 0, 0, false, false, 0)],
                       [Flight("a", true, Some(0)), Flight("b", false, None)], map["a" := 0], map[], Some(2), 3, false,
                       Counts(0, 2, 1, 0, 3, 0, 0))
  {
    run, s := ThirdBuilds(cfg);
    run, s := Then(cfg, run, s, Event(2, Makes(BuildOk)));
    run, s := Then(cfg, run, s, Event(2, Books(Return)));
  }

  lemma ThirdRemoves(cfg: Config) returns (run: seq<Event>, s: State)
    requires cfg == Config(1, true, false)
    ensures Reaches(cfg, run, s) && WellTyped(s)
    ensures s == State([Paused(), User(), Asked(Retiring(0, Insert(1, 1, 1)), "b")],
                       [Client("a", 1, 2, false, false, 0), Client("b", 0, 0, false, false, 0)],
                       [Flight("a", true, Some(0)), Flight("b", false, None)], map[], map[], Some(2), 3, false,
                       Counts(0, 2, 1, 0, 3, 0, 0))
  {
    run, s := ThirdStores(cfg);
    run, s := Then(cfg, run, s, Event(2, Inserts(Evict("a"))));
  }

  /** Its insertion evicts the client in use, which retire leaves to its holder. */
  lemma ThirdEvicts(cfg: Config) returns (run: seq<Event>, s: State)
    requires cfg == Config(1, true, false)
    ensures Reaches(cfg, run, s) && WellTyped(s)
    ensures s == State([Paused(), User(), Asked(Checking(0, Insert(1, 1, 1)), "b")],
                       [Client("a", 1, 2, true, false, 0), Client("b", 0, 0, false, false, 0)],
                       [Flight("a", true, Some(0)), Flight("b", false, None)], map[], map[], Some(2), 3, false,
                       Counts(0, 2, 1, 0, 3, 0, 0))
  {
    run, s := ThirdRemoves(cfg);
    run, s := Then(cfg, run, s, Event(2, Closes(Retire)));
  }

  /** With Release as its two steps, the paused holder goes on and closes the client the second one is using. */
  lemma SplitReleaseClosesClientInUse(cfg: Config)
    requires cfg == Config(1, true, false)
    ensures exists run, s, t :: Reaches(cfg, run, s) && 0 <= t < |s.threads| && s.threads[t].pc.HitSeen? &&
              var h := s.threads[t].pc.hold; h.open && h.client < |s.clients| && s.clients[h.client].closed
  {
    var run, s := ThirdEvicts(cfg);
    run, s := Then(cfg, run, s, Event(2, Chooses(CheckIdle)));
    run, s := Then(cfg, run, s, Event(0, Chooses(LoadRetired)));
    run, s := Then(cfg, run, s, Event(0, Closes(CloseLast)));
    assert s.threads[1].pc.HitSeen?;
  }

  // A request that slips past the drain

  /** Drain polls while a request stands between the check and its count, and returns nil. */
  lemma DrainsEarly(cfg: Config) returns (run: seq<Event>, s: State)
    requires cfg == Config(1, false, true)
    ensures Reaches(cfg, run, s) && WellTyped(s)
    ensures s == State([Thread(Entering, "", Log(0, 0, 0, 0)), Thread(Drained(true), "", Log(0, 0, 0, 0))], [], [],
                       map[], map[],
                       None, 0, true, Counts(0, 0, 0, 0, 0, 0, 0))
  {
    run, s := [], Init();
    run, s := Then(cfg, run, s, Event(0, Begins(CheckDraining)));
    run, s := Then(cfg, run, s, Event(1, Begins(StartDrain)));
    run, s := Then(cfg, run, s, Event(1, Goes(Poll)));
  }

  lemma ShutsDownEarly(cfg: Config) returns (run: seq<Event>, s: State)
    requires cfg == Config(1, false, true)
    ensures Reaches(cfg, run, s) && WellTyped(s)
    ensures s == State([Thread(Admitted, "", Log(0, 0, 0, 0)), Thread(Shutdown(true), "", Log(0, 0, 0, 0))], [], [],
                       map[], map[],
                       None, 1, true, Counts(0, 0, 0, 0, 0, 0, 0))
  {
    run, s := DrainsEarly(cfg);
    run, s := Then(cfg, run, s, Event(1, Turns(StartClose)));
    run, s := Then(cfg, run, s, Event(1, Turns(EndClose)));
    run, s := Then(cfg, run, s, Event(0, Arrives(Enter)));
  }

  lemma AsksLate(cfg: Config) returns (run: seq<Event>, s: State)
    requires cfg == Config(1, false, true)
    ensures Reaches(cfg, run, s) && WellTyped(s)
    ensures s == State([Asked(Asking, "a"), Thread(Shutdown(true), "", Log(0, 0, 0, 0))], [], [], map[], map[],
                       None, 1, true, Counts(0, 0, 0, 0, 1, 0, 0))
  {
    run, s := ShutsDownEarly(cfg);
    run, s := Then(cfg, run, s, Event(0, Arrives(ObserveStart)));
    run, s := Then(cfg, run, s, Event(0, Arrives(Ask("a"))));
  }

  /** With the draining check and the count as two steps, a request may run, and build a client nobody will close, after
      Drain has returned nil and Cache.Close has finished. */
  lemma SplitAdmissionOutlivesShutdown(cfg: Config)
    requires cfg == Config(1, false, true)
    ensures exists run, s, t :: Reaches(cfg, run, s) && 0 <= t < |s.threads| && s.threads[t].pc == Shutdown(true) &&
              s.active == 1 && |s.clients| == 1 && !s.clients[0].closed
  {
    var run, s := AsksLate(cfg);
    run, s := Then(cfg, run, s, Event(0, Books(LookupMiss)));
    run, s := Then(cfg, run, s, Event(0, Notes(ObserveMiss)));
    run, s := Then(cfg, run, s, Event(0, Makes(BuildOk)));
    assert s.threads[1].pc == Shutdown(true);
  }
}
