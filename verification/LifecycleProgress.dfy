/** The system never wedges: while some thread has work left, some thread can go on. */
module LifecycleProgress {
  import opened Options
  import opened Lifecycle
  import opened LifecycleBooks
  import opened LifecycleInvariant
  import opened LifecycleTheorems

  /** The thread has nothing left to do, or is the main thread, back from Drain. */
  predicate Done(pc: Pc) {
    pc.Gone? || (pc.Swept? && pc.left == 0) || pc.Drained? || pc.Shutdown?
  }

  /** Some key of a set that is not empty has the least timestamp. */
  lemma {:induction false} LeastKey(s: State, keys: set<Key>) returns (k: Key)
    requires InRange(s) && keys != {} && keys <= s.entries.Keys
    ensures k in keys && forall j :: j in keys ==> s.clients[s.entries[k]].lastUsed <= s.clients[s.entries[j]].lastUsed
    decreases |keys|
  {
    k :| k in keys;
    var first, rest := k, keys - {k};
    if rest != {} {
      var least := LeastKey(s, rest);
      if s.clients[s.entries[least]].lastUsed < s.clients[s.entries[k]].lastUsed {
        k := least;
      }
    }
    assert forall j :: j in keys ==> j == first || j in rest;
  }

  /** A full cache has something to evict, if it may hold anything at all. */
  lemma InsertingGoesOn(cfg: Config, s: State, t: nat)
    requires cfg.max >= 1 && WellTyped(s) && t < |s.threads| && s.threads[t].pc.InLoop? && s.threads[t].pc.loop.Insert?
    ensures CanStep(cfg, s, t)
  {
    if |s.entries| >= cfg.max {
      assert s.entries.Keys != {};
      var k := LeastKey(s, s.entries.Keys);
      assert Oldest(s, k);
      assert Enabled(cfg, s, Event(t, Inserts(Evict(k))));
    } else {
      assert Enabled(cfg, s, Event(t, Inserts(Store(0))));
    }
  }

  lemma LoopGoesOn(cfg: Config, s: State, t: nat)
    requires cfg.max >= 1 && WellTyped(s) && t < |s.threads| && s.threads[t].pc.InLoop?
    requires LoopOk(s, s.threads[t].key, s.threads[t].pc.loop)
    ensures CanStep(cfg, s, t)
  {
    var l := s.threads[t].pc.loop;
    if l.Insert? {
      InsertingGoesOn(cfg, s, t);
    } else if l.todo == {} {
      assert Enabled(cfg, s, Event(t, Turns(if l.Sweep? then EndSweep else EndClose)));
    } else {
      var k :| k in l.todo;
      assert Enabled(cfg, s, Event(t, Clears(if l.Sweep? then Visit(k) else Drop(k))));
    }
  }

  /** The lock's holder can go on. */
  lemma HolderGoesOn(cfg: Config, s: State, t: nat)
    requires cfg.max >= 1 && WellTyped(s) && t < |s.threads| && Locked(s.threads[t].pc)
    requires LoopOk(s, s.threads[t].key, s.threads[t].pc.loop)
    ensures CanStep(cfg, s, t)
  {
    AllWithin(s, t);
    if s.threads[t].pc.InLoop? {
      LoopGoesOn(cfg, s, t);
    } else {
      var what := match s.threads[t].pc
        case Retiring(_, _) => Closes(Retire)
        case Checking(_, _) => Chooses(CheckIdle)
        case _ => Closes(CloseVictim);
      assert Enabled(cfg, s, Event(t, what));
    }
  }

  /** What a request does next with no client and no flight in hand. */
  function Early(pc: Pc): Action
    requires pc.Entering? || pc.Admitted? || pc.Resolving? || pc.Finishing? || pc.Leaving?
  {
    match pc
    case Entering => Arrives(Enter)
    case Admitted => Arrives(ObserveStart)
    case Resolving => Departs(Reject)
    case Finishing => Departs(ObserveFinish)
    case Leaving => Departs(Leave)
  }

  /** What it does with a client in hand, or just let go. */
  function Late(pc: Pc): Action
    requires pc.HitSeen? || pc.BuiltSeen? || pc.EvictSeen? || pc.Holding? || pc.Streaming? || pc.Releasing? ||
             pc.LastLook? || pc.LastClose?
  {
    match pc
    case HitSeen(_) => Notes(ObserveHit)
    case BuiltSeen(_, _) => Tells(ObserveBuilt)
    case EvictSeen(_, n) => if n > 0 then Tells(ObserveEvicted) else Ends(HandOver)
    case Holding(_) => Goes(RoundTrip(true))
    case Streaming(_) => Goes(CloseBody)
    case Releasing(_) => Action.Release
    case LastLook(_) => Chooses(LoadRetired)
    case LastClose(_) => Closes(CloseLast)
  }

  /** What a thread does on the way to landing a flight. */
  function Flying(pc: Pc): Action
    requires pc.MissSeen? || pc.Making? || pc.Built? || pc.Landing?
  {
    match pc
    case MissSeen(_) => Notes(ObserveMiss)
    case Making(_) => Makes(BuildOk)
    case Built(_, _) => Books(Return)
    case Landing(_, _, _) => Makes(Land)
  }

  lemma EarlyGoesOn(cfg: Config, s: State, t: nat)
    requires WellTyped(s) && t < |s.threads|
    requires var pc := s.threads[t].pc; pc.Entering? || pc.Admitted? || pc.Resolving? || pc.Finishing? || pc.Leaving?
    ensures CanStep(cfg, s, t)
  {
    assert Enabled(cfg, s, Event(t, Early(s.threads[t].pc)));
  }

  lemma LateGoesOn(cfg: Config, s: State, t: nat)
    requires WellTyped(s) && t < |s.threads|
    requires var pc := s.threads[t].pc;
             pc.HitSeen? || pc.BuiltSeen? || pc.EvictSeen? || pc.Holding? || pc.Streaming? || pc.Releasing? ||
             pc.LastLook? || pc.LastClose?
    ensures CanStep(cfg, s, t)
  {
    AllWithin(s, t);
    assert Enabled(cfg, s, Event(t, Late(s.threads[t].pc)));
  }

  lemma FlyingGoesOn(cfg: Config, s: State, t: nat)
    requires WellTyped(s) && t < |s.threads| && s.lock == None
    requires var pc := s.threads[t].pc; pc.MissSeen? || pc.Making? || pc.Built? || pc.Landing?
    ensures CanStep(cfg, s, t)
  {
    AllWithin(s, t);
    assert Enabled(cfg, s, Event(t, Flying(s.threads[t].pc)));
  }

  lemma AskingGoesOn(cfg: Config, s: State, t: nat)
    requires WellTyped(s) && t < |s.threads| && s.lock == None && s.threads[t].pc.Asking?
    ensures CanStep(cfg, s, t)
  {
    AllWithin(s, t);
    var k := s.threads[t].key;
    var what := if k in s.entries then Takes(LookupHit(0)) else if k in s.pending then Chooses(LookupJoin)
      else Books(LookupMiss);
    assert Enabled(cfg, s, Event(t, what));
  }

  /** A waiter can go on, or whoever is to land its flight can. */
  lemma WaiterGoesOn(cfg: Config, s: State, t: nat) returns (u: nat)
    requires Inv(cfg, s) && t < |s.threads| && s.lock == None && s.threads[t].pc.Waiting?
    ensures u < |s.threads| && CanStep(cfg, s, u)
  {
    var f := s.threads[t].pc.flight;
    AllWithin(s, t);
    if s.flights[f].landed {
      u := t;
      assert Enabled(cfg, s, Event(t, if s.flights[f].client.Some? then Takes(Share(0)) else Ends(Fail)));
    } else {
      u := SumPositive(Airborne(f), s.threads);
      assert !Locked(s.threads[u].pc);
      FlyingGoesOn(cfg, s, u);
    }
  }

  lemma UnlockedGoesOn(cfg: Config, s: State, t: nat) returns (u: nat)
    requires Inv(cfg, s) && t < |s.threads| && s.lock == None && !Done(s.threads[t].pc)
    ensures u < |s.threads| && CanStep(cfg, s, u)
  {
    u := t;
    var pc := s.threads[t].pc;
    assert !Locked(pc);
    if pc.Waiting? {
      u := WaiterGoesOn(cfg, s, t);
    } else if pc.Asking? {
      AskingGoesOn(cfg, s, t);
    } else if pc.MissSeen? || pc.Making? || pc.Built? || pc.Landing? {
      FlyingGoesOn(cfg, s, t);
    } else if pc.JoinSeen? {
      assert Enabled(cfg, s, Event(t, Notes(ObserveJoin)));
    } else if pc.Draining? {
      assert Enabled(cfg, s, Event(t, Goes(Expire)));
    } else if pc.Swept? {
      assert Enabled(cfg, s, Event(t, Tells(ObserveSwept)));
    } else if pc.Entering? || pc.Admitted? || pc.Resolving? || pc.Finishing? || pc.Leaving? {
      EarlyGoesOn(cfg, s, t);
    } else {
      LateGoesOn(cfg, s, t);
    }
  }

  /** Neither the lock nor a flight can wedge the system: in every reachable state in which a thread has work left, some
      thread that is already there can take a step. */
  lemma NeverWedged(cfg: Config, run: seq<Event>, s: State, t: nat)
    requires cfg.max >= 1 && Reaches(cfg, run, s) && t < |s.threads| && !Done(s.threads[t].pc)
    ensures WellTyped(s) && exists u :: 0 <= u < |s.threads| && CanStep(cfg, s, u)
  {
    Reached(cfg, run, s);
    if s.lock.Some? {
      var h := s.lock.value;
      assert Locked(s.threads[h].pc) && PcInRange(s, s.threads[h].pc) && ThreadOk(s, s.threads[h]);
      HolderGoesOn(cfg, s, h);
    } else {
      var u := UnlockedGoesOn(cfg, s, t);
    }
  }
}
