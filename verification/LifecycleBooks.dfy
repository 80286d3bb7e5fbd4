/** Double-entry bookkeeping for the lifecycle: every shared counter equals a sum over the threads. */
module LifecycleBooks {
  import opened Options
  import opened Lifecycle

  datatype Measure =
    | Active                     // requests admitted and not left
    | Inflight(client: ClientId) // holders of a client
    | Owing(client: ClientId)    // threads that are going to close a client
    | Unplaced(client: ClientId) // threads carrying a client into or out of the cache
    | Builders(key: Key)         // threads building for a key
    | Airborne(flight: FlightId)   // threads that will land a flight
    | Lookups                    // Gets whose hit or miss is not observed yet
    | Builds                     // misses whose build is not observed yet
    | Gauge                      // insertions not observed minus evictions not observed

  function One(b: bool): int { if b then 1 else 0 }

  /** The program counters of a request that `active` counts. */
  predicate Requesting(pc: Pc) {
    !(pc.Entering? || pc.Gone? || pc.Swept? || pc.Draining? || pc.Drained? || pc.Shutdown?) &&
    (Locked(pc) ==> pc.loop.Insert?)
  }

  function Debt(pc: Pc): int {
    if pc.Landing? then One(pc.got.Some?) - pc.evicted
    else if pc.BuiltSeen? then 1 - pc.evicted
    else if pc.EvictSeen? then 0 - pc.evicted
    else if pc.Swept? then 0 - pc.left
    else if IsInserting(pc) then 0 - pc.loop.evicted
    else if Locked(pc) && pc.loop.Sweep? then 0 - pc.loop.swept
    else 0
  }

  /** Between the two atomic steps of Release, or past them. */
  predicate HalfReleased(pc: Pc) { pc.LastLook? || pc.LastClose? }

  /** What one thread stands for in the books. */
  datatype Profile = Profile(
    hand: Option<Hold>, held: Option<ClientId>, carried: Option<ClientId>, leaving: Option<ClientId>,
    owed: Option<ClientId>,
    builds: Option<Key>, flies: Option<FlightId>, requesting: bool, asking: bool, making: bool, debt: int, half: bool)

  function ProfileOf(th: Thread): Profile {
    var pc := th.pc;
    Profile(
      HoldOf(pc), if HoldOf(pc).Some? then Some(HoldOf(pc).value.client) else None,
      if pc.Built? then pc.built else if IsInserting(pc) then Some(pc.loop.added) else None,
      if pc.Retiring? then Some(pc.victim) else None,
      if pc.Retiring? || pc.Checking? || pc.ClosingVictim? then Some(pc.victim)
      else if pc.LastLook? || pc.LastClose? then Some(pc.client) else None,
      if pc.MissSeen? || pc.Making? || pc.Built? then Some(th.key) else None,
      if pc.JoinSeen? || pc.Waiting? then None else FlightOf(pc),
      Requesting(pc),
      pc.Asking? || pc.HitSeen? || pc.JoinSeen? || pc.MissSeen?,
      pc.Making? || (pc.Built? && pc.built.Some?) || pc.BuiltSeen? || (pc.Landing? && pc.got.Some?) || IsInserting(pc),
      Debt(pc),
      HalfReleased(pc))
  }

  function Stake(m: Measure, p: Profile): int {
    match m
    case Active => One(p.requesting)
    case Inflight(c) => One(p.held == Some(c))
    case Owing(c) => One(p.owed == Some(c))
    case Unplaced(c) => One(p.carried == Some(c)) + One(p.leaving == Some(c))
    case Builders(k) => One(p.builds == Some(k))
    case Airborne(f) => One(p.flies == Some(f))
    case Lookups => One(p.asking)
    case Builds => One(p.making)
    case Gauge => p.debt
  }

  function Units(m: Measure, th: Thread): int { Stake(m, ProfileOf(th)) }

  function Sum(m: Measure, ths: seq<Thread>): int {
    if ths == [] then 0 else Sum(m, ths[..|ths| - 1]) + Units(m, ths[|ths| - 1])
  }

  predicate Placed(s: State, c: ClientId)
    requires c < |s.clients|
  {
    s.clients[c].key in s.entries && s.entries[s.clients[c].key] == c
  }

  /** What the shared state says a measure should sum to; Owing has no counter. */
  function Counter(s: State, m: Measure): int {
    match m
    case Active => s.active
    case Inflight(c) => if c < |s.clients| then s.clients[c].inflight else 0
    case Owing(c) => 0
    case Unplaced(c) => One(c < |s.clients| && !s.clients[c].retired && !Placed(s, c))
    case Builders(k) => One(k in s.pending)
    case Airborne(f) => One(f < |s.flights| && !s.flights[f].landed)
    case Lookups => s.counts.gets - s.counts.hits - s.counts.misses
    case Builds => s.counts.misses - s.counts.builds - s.counts.failed
    case Gauge => |s.entries| - s.counts.builds + s.counts.evictions + s.counts.silent
  }

  ghost predicate Balanced(s: State) {
    forall m: Measure :: m.Owing? || Counter(s, m) == Sum(m, s.threads)
  }

  lemma {:induction false} SumPut(m: Measure, ths: seq<Thread>, t: nat, th: Thread)
    requires t < |ths|
    ensures Sum(m, ths[t := th]) == Sum(m, ths) - Units(m, ths[t]) + Units(m, th)
  {
    var n := |ths| - 1;
    if t == n {
      assert ths[t := th][..n] == ths[..n];
    } else {
      assert ths[t := th][..n] == ths[..n][t := th];
      SumPut(m, ths[..n], t, th);
    }
  }

  lemma SumAdd(m: Measure, ths: seq<Thread>, th: Thread)
    ensures Sum(m, ths + [th]) == Sum(m, ths) + Units(m, th)
  {
    assert (ths + [th])[..|ths|] == ths;
  }

  lemma UnitsFloor(m: Measure, th: Thread)
    requires m != Gauge
    ensures Units(m, th) >= 0
  {
  }

  /** A thread's units never exceed the sum, nor do those of two threads together. */
  lemma {:induction false} SumFloor(m: Measure, ths: seq<Thread>, t: nat, u: nat)
    requires m != Gauge && t <= u < |ths|
    ensures Units(m, ths[t]) + (if t == u then 0 else Units(m, ths[u])) <= Sum(m, ths)
  {
    var n := |ths| - 1;
    UnitsFloor(m, ths[0]);
    UnitsFloor(m, ths[n]);
    hide Units;
    if u < n {
      SumFloor(m, ths[..n], t, u);
    } else if t < u {
      SumFloor(m, ths[..n], t, t);
    } else if n > 0 {
      SumFloor(m, ths[..n], 0, 0);
    }
  }

  lemma {:induction false} SumPositive(m: Measure, ths: seq<Thread>) returns (t: nat)
    requires m != Gauge && Sum(m, ths) > 0
    ensures t < |ths| && Units(m, ths[t]) > 0
  {
    var n := |ths| - 1;
    if Units(m, ths[n]) > 0 {
      t := n;
    } else {
      t := SumPositive(m, ths[..n]);
    }
  }

  function Marked(m: Measure, ths: seq<Thread>): set<nat> {
    set t | 0 <= t < |ths| && Units(m, ths[t]) == 1
  }

  lemma MarkedGrows(m: Measure, ths: seq<Thread>)
    requires ths != []
    ensures var n := |ths| - 1;
            |Marked(m, ths)| == |Marked(m, ths[..n])| + One(Units(m, ths[n]) == 1)
  {
    hide Units;
    var n := |ths| - 1;
    var front := Marked(m, ths[..n]);
    forall t | 0 <= t < n ensures ths[..n][t] == ths[t] {
    }
    assert Marked(m, ths) == if Units(m, ths[n]) == 1 then front + {n} else front;
  }

  /** A measure of zeros and ones counts the threads it picks out. */
  lemma {:induction false} SumCounts(m: Measure, ths: seq<Thread>)
    requires forall t :: 0 <= t < |ths| ==> 0 <= Units(m, ths[t]) <= 1
    ensures Sum(m, ths) == |Marked(m, ths)|
  {
    if ths != [] {
      var n := |ths| - 1;
      SumCounts(m, ths[..n]);
      MarkedGrows(m, ths);
    }
  }

  /** A step of thread t leaves every other thread where it was. */
  ghost predicate Moves(s: State, s': State, t: nat) {
    t < |s.threads| == |s'.threads| && s'.threads == s.threads[t := s'.threads[t]]
  }

  /** A step of a new thread leaves every thread where it was. */
  ghost predicate Appends(s: State, s': State) {
    |s'.threads| == |s.threads| + 1 && s'.threads == s.threads + [s'.threads[|s.threads|]]
  }

  lemma SumMoves(s: State, s': State, t: nat)
    requires Moves(s, s', t)
    ensures forall m :: Sum(m, s'.threads) == Sum(m, s.threads) - Units(m, s.threads[t]) + Units(m, s'.threads[t])
  {
    forall m ensures Sum(m, s'.threads) == Sum(m, s.threads) - Units(m, s.threads[t]) + Units(m, s'.threads[t]) {
      SumPut(m, s.threads, t, s'.threads[t]);
    }
  }

  lemma SumAppends(s: State, s': State)
    requires Appends(s, s')
    ensures forall m :: Sum(m, s'.threads) == Sum(m, s.threads) + Units(m, s'.threads[|s.threads|])
  {
    forall m ensures Sum(m, s'.threads) == Sum(m, s.threads) + Units(m, s'.threads[|s.threads|]) {
      SumAdd(m, s.threads, s'.threads[|s.threads|]);
    }
  }

  /** What the running thread contributes now bounds every measure's sum from below. */
  lemma Floor(s: State, m: Measure, t: nat)
    requires Balanced(s) && t < |s.threads| && m != Gauge && !m.Owing?
    ensures Counter(s, m) >= Units(m, s.threads[t])
  {
    SumFloor(m, s.threads, t, t);
  }
}
