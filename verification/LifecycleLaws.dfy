/** What a thread's own next step does to it, at the three places where it depends on what others have done. */
module LifecycleLaws {
  import opened Lifecycle
  import opened Options

  /** A Get looks once, under a lock that is free: it takes the cached client, or joins the flight, or registers one. */
  lemma LookupDecides(cfg: Config, s: State, e: Event)
    requires WellTyped(s) && Enabled(cfg, s, e) && !e.what.Begins? && s.threads[e.who].pc.Asking?
    ensures var k, s' := s.threads[e.who].key, Apply(cfg, s, e);
            var pc := s'.threads[e.who].pc;
            s.lock == None && s'.entries == s.entries &&
            (k in s.entries ==>
              pc.HitSeen? && pc.hold.client == s.entries[k] && s'.pending == s.pending && s'.flights == s.flights) &&
            (k !in s.entries && k in s.pending ==>
              pc == JoinSeen(s.pending[k]) && s'.pending == s.pending && s'.clients == s.clients &&
              s'.flights == s.flights) &&
            (k !in s.entries && k !in s.pending ==>
              pc == MissSeen(|s.flights|) && s'.pending == s.pending[k := |s.flights|] && s'.clients == s.clients)
  {
  }

  /** A waiter goes on only when its flight has landed, and then with the client it brought or with an error. */
  lemma WaiterWaits(cfg: Config, s: State, e: Event)
    requires WellTyped(s) && Enabled(cfg, s, e) && !e.what.Begins? && s.threads[e.who].pc.Waiting?
    ensures var flight, pc := s.flights[s.threads[e.who].pc.flight], Apply(cfg, s, e).threads[e.who].pc;
            flight.landed &&
            match flight.client
            case Some(c) => pc.Holding? && pc.hold.client == c
            case None => pc == Finishing
  {
  }

  /** A holder makes its round trip: a response is streamed, a failure releases the client at once. */
  lemma RoundTripDecides(cfg: Config, s: State, t: nat, ok: bool)
    requires WellTyped(s) && Enabled(cfg, s, Event(t, Goes(RoundTrip(ok))))
    ensures var pc, pc' := s.threads[t].pc, Apply(cfg, s, Event(t, Goes(RoundTrip(ok)))).threads[t].pc;
            pc.Holding? && pc' == if ok then Streaming(pc.hold) else Releasing(pc.hold)
  {
  }

  /** A Release gives one holding back. As one step it also closes a retired client that nobody holds any more; taken
      apart, it closes nothing, and looks again if it was the last. */
  lemma ReleaseDecides(cfg: Config, s: State, t: nat)
    requires WellTyped(s) && Enabled(cfg, s, Event(t, Release))
    ensures var c := s.threads[t].pc.hold.client;
            var was, cl, pc' := s.clients[c], Apply(cfg, s, Event(t, Release)).clients[c],
              Apply(cfg, s, Event(t, Release)).threads[t].pc;
            cl.inflight == was.inflight - 1 && cl.retired == was.retired && cl.lastUsed == was.lastUsed &&
            (cfg.splitRelease ==> cl.closed == was.closed && pc' == if was.inflight == 1 then LastLook(c)
             else Finishing) &&
            (!cfg.splitRelease ==>
              (cl.closed <==> was.closed || (was.retired && was.inflight == 1)) && pc' == Finishing)
  {
  }
}
