/** Exactly when a waiter, which takes its client after the builder has unlocked, takes a closed one. */
module LifecycleWaiters {
  import opened Options
  import opened Lifecycle
  import opened LifecycleBooks
  import opened LifecycleInvariant
  import opened LifecycleSteps
  import opened LifecycleTheorems

  /** What was closed when its holder took it is closed now. */
  ghost predicate Stale(s: State, pc: Pc)
    requires PcInRange(s, pc)
  {
    HoldOf(pc).Some? && !HoldOf(pc).value.open ==> s.clients[HoldOf(pc).value.client].closed
  }

  ghost predicate AllStale(s: State)
    requires WellTyped(s)
  {
    forall t :: 0 <= t < |s.threads| ==> Stale(s, s.threads[t].pc)
  }

  lemma StaleStep(cfg: Config, s: State, e: Event, t: nat)
    requires WellTyped(s) && AllStale(s) && Enabled(cfg, s, e) && WellTyped(Apply(cfg, s, e))
    requires t < |Apply(cfg, s, e).threads|
    ensures Stale(Apply(cfg, s, e), Apply(cfg, s, e).threads[t].pc)
  {
    var h := HoldOf(Apply(cfg, s, e).threads[t].pc);
    if h.Some? && !h.value.open {
      StepIsPlain(cfg, s, e);
      if t != e.who {
        OthersStay(cfg, s, e, t);
      }
      assert t < |s.threads| && HoldOf(s.threads[t].pc) == h ==> Stale(s, s.threads[t].pc);
    }
  }

  lemma {:induction false} StaleRun(cfg: Config, s: State, run: seq<Event>)
    requires Inv(cfg, s) && AllStale(s) && Exec(cfg, s, run).Some?
    ensures WellTyped(Exec(cfg, s, run).value) && AllStale(Exec(cfg, s, run).value)
    decreases |run|
  {
    if run != [] {
      var s' := Apply(cfg, s, run[0]);
      StepKeeps(cfg, s, run[0]);
      forall t | 0 <= t < |s'.threads| ensures Stale(s', s'.threads[t].pc) {
        StaleStep(cfg, s, run[0], t);
      }
      StaleRun(cfg, s', run[1..]);
    }
  }

  /** Some thread holds the client and took it open. */
  predicate HeldOpen(s: State, c: ClientId) {
    exists t :: 0 <= t < |s.threads| && HoldOf(s.threads[t].pc).Some? &&
                HoldOf(s.threads[t].pc).value.client == c && HoldOf(s.threads[t].pc).value.open
  }

  /** No retire or Release of the client is on its way to close it. */
  predicate NoneClosing(s: State, c: ClientId) {
    forall t :: 0 <= t < |s.threads| ==> ProfileOf(s.threads[t]).owed != Some(c)
  }

  lemma RetiredIsClosed(cfg: Config, s: State, c: ClientId)
    requires Inv(cfg, s) && AllStale(s) && c < |s.clients| && NoneClosing(s, c)
    requires s.clients[c].retired && !HeldOpen(s, c)
    ensures s.clients[c].closed
  {
    if s.clients[c].inflight == 0 {
      SumZero(Owing(c), s);
    } else {
      InflightIsCount(s, c);
      assert Holders(s, c) != {};
      var t :| t in Holders(s, c);
      assert Stale(s, s.threads[t].pc);
    }
  }

  lemma {:induction false} GaplessEnds(cfg: Config, s: State, run: seq<Event>, e: Event)
    requires Gapless(cfg, s, run + [e]) && Exec(cfg, s, run).Some?
    ensures Gapless(cfg, s, run)
    ensures var r := Exec(cfg, s, run).value;
            WellTyped(r) && Enabled(cfg, r, e) &&
            (e.who < |Apply(cfg, r, e).threads| ==> TakesCalmly(r, Apply(cfg, r, e), e.who))
    decreases |run|
  {
    if run != [] {
      assert (run + [e])[1..] == run[1..] + [e];
      GaplessEnds(cfg, Apply(cfg, s, run[0]), run[1..], e);
    } else {
      assert run + [e] == [e];
    }
  }

  /** Outside the lock, only the second half of a Release is about to close a client. */
  lemma OnlyReleaseOwes(th: Thread)
    requires !Locked(th.pc)
    ensures ProfileOf(th).owed == if HalfReleased(th.pc) then Some(th.pc.client) else None
  {
  }

  lemma ShareTakes(s: State, t: nat, now: int)
    requires Within(s, t) && CanTake(s, t, Share(now))
    ensures var s' := Take(s, t, Share(now));
            t < |s'.threads| && s.lock == None && HoldOf(s.threads[t].pc) == None && HoldOf(s'.threads[t].pc).Some? &&
            HoldOf(s'.threads[t].pc).value.client == s.flights[s.threads[t].pc.flight].client.value
  {
  }

  /** When a waiter takes its client, no retire is under way, since the lock is free, and no Release of it, if the take
      is in nobody's gap. */
  lemma SharedIsSettled(cfg: Config, s: State, t: nat, now: int)
    requires Inv(cfg, s) && Enabled(cfg, s, Event(t, Takes(Share(now))))
    requires var s' := Apply(cfg, s, Event(t, Takes(Share(now))));
             Whole(s) || (t < |s'.threads| && TakesCalmly(s, s', t))
    ensures NoneClosing(s, s.flights[s.threads[t].pc.flight].client.value)
  {
    var c := s.flights[s.threads[t].pc.flight].client.value;
    ShareTakes(s, t, now);
    forall u | 0 <= u < |s.threads| ensures ProfileOf(s.threads[u]).owed != Some(c) {
      assert !Locked(s.threads[u].pc);
      OnlyReleaseOwes(s.threads[u]);
    }
  }

  lemma {:induction false} WholeRun(cfg: Config, s: State, run: seq<Event>)
    requires !cfg.splitRelease && Whole(s) && Exec(cfg, s, run).Some?
    ensures Whole(Exec(cfg, s, run).value)
    decreases |run|
  {
    if run != [] {
      WholeStep(cfg, s, run[0]);
      WholeRun(cfg, Apply(cfg, s, run[0]), run[1..]);
    }
  }

  /** With Release as one step, or in two when nobody acquires a client inside the gap of another Release of it: a
      waiter takes a closed client exactly when, between the builder's unlocking and its own lock section, the client
      has been retired and every holder that took it open has let go of it. */
  lemma WaiterGetsClosedExactly(cfg: Config, run: seq<Event>, s: State, t: nat, now: int)
    requires var share := Event(t, Takes(Share(now)));
             Reaches(cfg, run, s) && WellTyped(s) && Enabled(cfg, s, share) &&
             (!cfg.splitRelease || Gapless(cfg, Init(), run + [share]))
    ensures var c, s' := s.flights[s.threads[t].pc.flight].client.value, Apply(cfg, s, Event(t, Takes(Share(now))));
            s'.threads[t].pc.Holding? && s'.threads[t].pc.hold.client == c &&
            (s'.clients[c].closed <==> s.clients[c].retired && !HeldOpen(s, c))
  {
    Reached(cfg, run, s);
    InitInv(cfg);
    StaleRun(cfg, Init(), run);
    if cfg.splitRelease {
      GaplessEnds(cfg, Init(), run, Event(t, Takes(Share(now))));
    } else {
      WholeRun(cfg, Init(), run);
    }
    SharedIsSettled(cfg, s, t, now);
    ClosedIffUnheld(cfg, run, s, s.flights[s.threads[t].pc.flight].client.value);
  }

  lemma ClosedIffUnheld(cfg: Config, run: seq<Event>, s: State, c: ClientId)
    requires Reaches(cfg, run, s) && (!cfg.splitRelease || Gapless(cfg, Init(), run))
    requires WellTyped(s) && AllStale(s) && c < |s.clients| && NoneClosing(s, c)
    ensures s.clients[c].closed <==> s.clients[c].retired && !HeldOpen(s, c)
  {
    Reached(cfg, run, s);
    if HeldOpen(s, c) {
      var u :| 0 <= u < |s.threads| && HoldOf(s.threads[u].pc).Some? &&
               HoldOf(s.threads[u].pc).value.client == c && HoldOf(s.threads[u].pc).value.open;
      HolderSafety(cfg, run, s, u);
    } else if s.clients[c].retired {
      RetiredIsClosed(cfg, s, c);
    }
  }
}
