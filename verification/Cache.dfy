/** The client cache as the source writes it: a map of clients with timestamps, searched for the oldest, against a ghost
    list of its keys in order of use. Each method is one lock section; the interleavings are in Lifecycle. */
module Cache {
  import opened SpecKey
  import Lru

  const MAX_INT64: int := 0x7FFF_FFFF_FFFF_FFFF

  /** The list holds the keys of the map, once each, and their timestamps fall along it. */
  ghost predicate Sorted(recent: seq<string>, at: map<string, int>)
    decreases recent
  {
    if recent == [] then at == map[]
    else
      recent[0] in at && (forall k :: k in at && k != recent[0] ==> at[k] < at[recent[0]]) &&
      Sorted(recent[1..], at - {recent[0]})
  }

  lemma {:induction false} SortedKeys(recent: seq<string>, at: map<string, int>)
    requires Sorted(recent, at)
    ensures |recent| == |at| && Lru.Distinct(recent) && forall k :: k in recent <==> k in at
    decreases recent
  {
    if recent != [] {
      SortedKeys(recent[1..], at - {recent[0]});
      assert at.Keys == (at - {recent[0]}).Keys + {recent[0]};
      assert recent == [recent[0]] + recent[1..];
    }
  }

  lemma {:induction false} RemoveKeepsSorted(recent: seq<string>, at: map<string, int>, k: string)
    requires Sorted(recent, at)
    ensures Sorted(Lru.Without(recent, k), at - {k})
    decreases recent
  {
    if recent == [] {
      assert at - {k} == at;
    } else {
      var first := recent[0];
      if first == k {
        SortedKeys(recent[1..], at - {k});
        Lru.WithoutKeeps(recent[1..], k);
      } else {
        RemoveKeepsSorted(recent[1..], at - {first}, k);
        assert at - {first} - {k} == at - {k} - {first};
        var rest := Lru.Without(recent, k);
        assert rest[1..] == Lru.Without(recent[1..], k);
      }
    }
  }

  lemma PushKeepsSorted(recent: seq<string>, at: map<string, int>, k: string, now: int)
    requires Sorted(recent, at) && k !in at && forall x :: x in at ==> at[x] < now
    ensures Sorted([k] + recent, at[k := now])
  {
    assert ([k] + recent)[1..] == recent && at[k := now] - {k} == at;
  }

  /** A key used at a later time than any other goes to the front, whether it was in the list or not. */
  lemma UseKeepsSorted(recent: seq<string>, at: map<string, int>, k: string, now: int)
    requires Sorted(recent, at) && forall x :: x in at ==> at[x] < now
    ensures Sorted(Lru.Front(recent, k), at[k := now])
  {
    RemoveKeepsSorted(recent, at, k);
    PushKeepsSorted(Lru.Without(recent, k), at - {k}, k, now);
    assert (at - {k})[k := now] == at[k := now];
  }

  /** The key with the least timestamp is the last of the list. */
  lemma {:induction false} LeastIsLast(recent: seq<string>, at: map<string, int>, k: string)
    requires Sorted(recent, at) && k in at && forall x :: x in at ==> at[k] <= at[x]
    ensures recent != [] && k == recent[|recent| - 1] && Lru.Without(recent, k) == recent[..|recent| - 1]
    decreases recent
  {
    var first := recent[0];
    if first == k {
      assert at.Keys == {k};
      SortedKeys(recent, at);
    } else {
      LeastIsLast(recent[1..], at - {first}, k);
      assert recent[..|recent| - 1] == [first] + recent[1..][..|recent| - 2];
    }
  }

  lemma Entered<T>(m: map<string, T>, k: string, x: T)
    requires k !in m
    ensures m[k := x] - {k} == m
  {
  }

  lemma {:induction false} FewerKeys(a: set<string>, b: set<string>)
    requires a <= b
    ensures |a| <= |b|
  {
    if a != {} {
      var k :| k in a;
      FewerKeys(a - {k}, b - {k});
    }
  }

  lemma OneLess<T>(m: map<string, T>, k: string)
    requires k in m
    ensures |m - {k}| == |m| - 1
  {
    var less := m - {k};
    assert m == less[k := m[k]];
  }

  lemma KeysLess<T, U>(m: map<string, T>, n: map<string, U>, k: string)
    requires m.Keys == n.Keys
    ensures (m - {k}).Keys == (n - {k}).Keys && |m - {k}| <= |m|
  {
    assert m - {k} == m || k in m;
    if k in m {
      OneLess(m, k);
    }
  }

  lemma PushTake(recent: seq<string>, k: string, max: nat)
    requires max >= 1 && |recent| <= max
    ensures Lru.Take(max, [k] + recent) == [k] + if |recent| < max then recent else recent[..max - 1]
  {
  }

  lemma AbsentStays(recent: seq<string>, at: map<string, int>, k: string)
    requires Sorted(recent, at) && k !in at
    ensures Lru.Without(recent, k) == recent
  {
    SortedKeys(recent, at);
    Lru.WithoutKeeps(recent, k);
  }

  /** The last key of the list is the one used longest ago. */
  ghost predicate EndsIn(recent: seq<string>, last: string) { recent != [] && last == recent[|recent| - 1] }

  lemma BuiltIsFront(max: nat, recent: seq<string>, key: string)
    requires max >= 1
    ensures Lru.Take(max, [key] + recent) != [] && Lru.Take(max, [key] + recent)[0] == key
  {
  }

  class Client {
    const spec: Spec
    const key: string
    var inflight: int
    var lastUsed: int
    var retired: bool
    var closed: bool
    ghost var closes: nat

    /** The closer is called once. */
    ghost predicate Valid()
      reads this
    {
      closes == if closed then 1 else 0
    }

    constructor (s: Spec, k: string)
      ensures Valid() && spec == s && key == k && inflight == 0 && lastUsed == 0 && !retired && !closed
    {
      spec, key := s, k;
      inflight, lastUsed, retired, closed, closes := 0, 0, false, false, 0;
    }

    method Acquire(now: int)
      requires Valid()
      modifies this`inflight, this`lastUsed
      ensures Valid() && inflight == old(inflight) + 1 && lastUsed == now
    {
      inflight := inflight + 1;
      lastUsed := now;
    }

    method Close()
      requires Valid()
      modifies this`closed, this`closes
      ensures Valid() && closed
    {
      if !closed {
        closed, closes := true, closes + 1;
      }
    }

    /** The last holder of a retired client closes it. */
    method Release()
      requires Valid() && inflight > 0
      modifies this`inflight, this`closed, this`closes
      ensures Valid() && inflight == old(inflight) - 1
      ensures closed == (old(closed) || (retired && old(inflight) == 1))
    {
      inflight := inflight - 1;
      if inflight == 0 && retired {
        Close();
      }
    }

    /** A client nobody holds is closed on retirement; one in use is left to its last holder. */
    method Retire()
      requires Valid()
      modifies this`retired, this`closed, this`closes
      ensures Valid() && retired && closed == (old(closed) || inflight == 0)
    {
      retired := true;
      if inflight == 0 {
        Close();
      }
    }
  }

  /** A build under way, for the Gets that join it. */
  class Flight {
    const key: string
    var landed: bool
    var client: Client?

    constructor (k: string)
      ensures key == k && !landed && client == null
    {
      key, landed, client := k, false, null;
    }

    /** `close(p.done)`, with what the build returned. */
    method Land(built: Client?)
      modifies this
      ensures landed && client == built
    {
      client, landed := built, true;
    }
  }

  /** What the first lock section of Get found. */
  datatype Found = Hit(client: Client) | Join(flight: Flight) | Miss(flight: Flight)

  class Cache {
    const max: int
    const idleTtl: int
    var entries: map<string, Client>
    var pending: map<string, Flight>
    ghost var recent: seq<string>  // the keys of `entries`, last used first
    ghost var at: map<string, int> // and when each was last used
    ghost var clock: int           // the last reading of the clock

    ghost predicate Valid()
      reads this, entries.Values
    {
      1 <= max && clock < MAX_INT64 && |entries| <= max && Sorted(recent, at) && at.Keys == entries.Keys &&
      (forall k :: k in entries ==> EntryOk(entries[k], k, at[k], clock)) &&
      forall k :: k in pending ==> k !in entries && pending[k].key == k
    }

    /** A cached client sits under its key, is neither retired nor closed, and was last used when the list has it. */
    ghost static predicate EntryOk(c: Client, k: string, used: int, clock: int)
      reads c
    {
      c.key == k && !c.retired && !c.closed && c.closes == 0 && c.inflight >= 0 && c.lastUsed == used <= clock
    }

    lemma Keys()
      requires Valid()
      ensures |recent| == |entries| && forall k :: k in recent <==> k in entries
    {
      SortedKeys(recent, at);
      assert |at| == |at.Keys| && |entries| == |entries.Keys|;
    }

    constructor (max: int, idleTtl: int)
      requires 1 <= max
      ensures Valid() && Faithful() && this.max == max && this.idleTtl == idleTtl && recent == [] && entries == map[] &&
              pending == map[] && clock == 0
    {
      this.max, this.idleTtl := max, idleTtl;
      entries, pending, recent, at, clock := map[], map[], [], map[], 0;
    }

    /** Some entry with the least timestamp; the search starts from the largest one there is. */
    method LeastRecent() returns (oldest: string)
      requires forall k :: k in entries ==> entries[k].lastUsed < MAX_INT64
      ensures entries == map[] ==> oldest == ""
      ensures entries != map[] ==> oldest in entries && forall k :: k in entries ==>
                entries[oldest].lastUsed <= entries[k].lastUsed
    {
      oldest := "";
      var oldestAt := MAX_INT64;
      var left := entries.Keys;
      while left != {}
        invariant left <= entries.Keys
        invariant left == entries.Keys ==> oldest == "" && oldestAt == MAX_INT64
        invariant left != entries.Keys ==> oldest in entries && oldestAt == entries[oldest].lastUsed
        invariant forall k :: k in entries && k !in left ==> oldestAt <= entries[k].lastUsed
        decreases |left|
      {
        var key :| key in left;
        left := left - {key};
        var at := entries[key].lastUsed;
        if at < oldestAt {
          oldest, oldestAt := key, at;
        }
      }
    }

    /** `delete(c.entries, key)`. */
    method Drop(key: string)
      requires Valid() && key in entries
      modifies this`entries, this`recent, this`at
      ensures Valid() && entries == old(entries) - {key} && recent == Lru.Without(old(recent), key)
    {
      hide EntryOk;
      hide Sorted;
      hide Lru.Without;
      RemoveKeepsSorted(recent, at, key);
      KeysLess(entries, at, key);
      entries, recent, at := entries - {key}, Lru.Without(recent, key), at - {key};
    }

    /** `evict`, of a key that is there. */
    method TakeOut(key: string, client: Client)
      requires Valid() && key in entries && entries[key] == client
      modifies this`entries, this`recent, this`at, client`retired, client`closed, client`closes
      ensures Valid() && entries == old(entries) - {key} && recent == Lru.Without(old(recent), key) && Retired(client)
    {
      assert client.Valid() && forall k :: k in entries && k != key ==> entries[k] != client by {
        assert forall k :: k in entries ==> EntryOk(entries[k], k, at[k], clock);
      }
      hide Sorted;
      Drop(key);
      client.Retire();
    }

    /** Takes an entry out of the cache and retires its client. */
    method Evict(key: string)
      requires Valid()
      modifies this`entries, this`recent, this`at, entries.Values`retired, entries.Values`closed, entries.Values`closes
      ensures Valid() && entries == old(entries) - {key} && recent == Lru.Without(old(recent), key)
      ensures key in old(entries) ==> Retired(old(entries)[key])
    {
      if key in entries {
        hide Valid;
        TakeOut(key, entries[key]);
      } else {
        hide Sorted;
        AbsentStays(recent, at, key);
        assert entries - {key} == entries;
      }
    }

    /** One round of the loop of `insert`: the client used longest ago is retired. */
    method EvictOldest(ghost all: set<Client>) returns (key: string)
      requires Valid() && entries != map[] && forall k :: k in entries ==> entries[k] in all
      modifies this`entries, this`recent, this`at, all`retired, all`closed, all`closes
      ensures Valid() && old(recent) != [] && key == old(recent)[|old(recent)| - 1] && key in old(entries)
      ensures entries == old(entries) - {key} && recent == old(recent)[..|old(recent)| - 1]
      ensures Retired(old(entries)[key])
    {
      hide Sorted;
      assert forall k :: k in entries ==> EntryOk(entries[k], k, at[k], clock);
      key := LeastRecent();
      LeastIsLast(recent, at, key);
      Evict(key);
    }

    /** The loop of `insert`: when the cache is full one entry goes, the one used longest ago, and no more than one. */
    method MakeRoom(ghost all: set<Client>) returns (evicted: nat, ghost last: string)
      requires Valid() && forall k :: k in entries ==> entries[k] in all
      modifies this`entries, this`recent, this`at, all`retired, all`closed, all`closes
      ensures Valid() && |entries| < max && |old(recent)| == |old(entries)|
      ensures if |old(entries)| < max then evicted == 0 && entries == old(entries) && recent == old(recent)
              else evicted == 1 && EndsIn(old(recent), last) && last in old(entries) && Retired(old(entries)[last]) &&
                   entries == old(entries) - {last} && recent == old(recent)[..|old(recent)| - 1]
    {
      assert 1 <= max && |recent| == |entries| by {
        Keys();
      }
      hide Valid;
      hide Retired;
      evicted, last := 0, "";
      while |entries| >= max
        invariant Valid() && evicted <= 1
        invariant evicted == 0 ==> entries == old(entries) && recent == old(recent)
        invariant evicted == 1 ==> |entries| < max == |old(entries)| && EndsIn(old(recent), last) &&
                                   last in old(entries)
        invariant evicted == 1 ==> entries == old(entries) - {last} && recent == old(recent)[..|old(recent)| - 1]
        invariant evicted == 1 ==> Retired(old(entries)[last])
        decreases |entries|
      {
        assert evicted == 0;
        var key := EvictOldest(all);
        OneLess(old(entries), key);
        evicted, last := evicted + 1, key;
      }
    }

    /** Acquires a client at the latest reading of the clock; if it is cached, its key becomes the most recent. */
    method Stamp(client: Client, now: int)
      requires Valid() && clock < now < MAX_INT64 && client.Valid()
      modifies this`recent, this`at, this`clock, client`inflight, client`lastUsed
      ensures Valid() && clock == now && recent == if Cached(client) then Lru.Front(old(recent), client.key)
              else old(recent)
      ensures client.inflight == old(client.inflight) + 1 && client.lastUsed == now
    {
      hide Sorted;
      assert forall k :: k in entries ==> EntryOk(entries[k], k, at[k], clock);
      client.Acquire(now);
      if Cached(client) {
        UseKeepsSorted(recent, at, client.key, now);
        recent, at := Lru.Front(recent, client.key), at[client.key := now];
      }
      clock := now;
    }

    ghost predicate Cached(client: Client)
      reads this
    {
      client.key in entries && entries[client.key] == client
    }

    /** Stores a client that has just been stamped. */
    method Place(key: string, client: Client, now: int)
      requires Valid() && clock < now < MAX_INT64 && key !in entries && key !in pending && |entries| < max
      requires client.Valid() && client.key == key && !client.retired && !client.closed
      requires client.inflight >= 0 && client.lastUsed == now
      modifies this`entries, this`recent, this`at, this`clock
      ensures Valid() && clock == now && entries == old(entries)[key := client] && recent == [key] + old(recent)
    {
      hide Sorted;
      assert EntryOk(client, key, now, now);
      assert forall k :: k in entries ==> EntryOk(entries[k], k, at[k], now);
      hide EntryOk;
      PushKeepsSorted(recent, at, key, now);
      entries, recent, at, clock := entries[key := client], [key] + recent, at[key := now], now;
    }

    /** Stores a client and acquires it, when there is room. */
    method Enter(key: string, client: Client, now: int)
      requires Valid() && clock < now < MAX_INT64 && key !in entries && key !in pending && |entries| < max
      requires client.Valid() && client.key == key && !client.retired && !client.closed
      requires client.inflight >= 0 && Unknown(client)
      modifies this`entries, this`recent, this`at, this`clock, client`inflight, client`lastUsed
      ensures Valid() && clock == now && entries == old(entries)[key := client] && recent == [key] + old(recent)
      ensures client.inflight == old(client.inflight) + 1 && client.lastUsed == now
    {
      hide Sorted;
      client.Acquire(now);
      Place(key, client, now);
    }

    /** The first lock section of Get. */
    method Lookup(key: string, now: int) returns (found: Found)
      requires Valid() && clock < now < MAX_INT64
      modifies this`entries, this`pending, this`recent, this`at, this`clock, entries.Values
      ensures Valid() && entries == old(entries)
      ensures found.Hit? <==> key in old(entries)
      ensures found.Hit? ==> found.client == entries[key] && found.client.inflight == old(entries[key].inflight) + 1 &&
                             found.client.lastUsed == now &&
                             recent == Lru.Front(old(recent), key) && pending == old(pending) && clock == now
      ensures found.Join? <==> key !in old(entries) && key in old(pending)
      ensures found.Join? ==> found.flight == old(pending)[key] && recent == old(recent) && pending == old(pending) &&
                              clock == old(clock)
      ensures found.Miss? ==> fresh(found.flight) && !found.flight.landed &&
                              pending == old(pending)[key := found.flight] &&
                              recent == old(recent) && clock == old(clock)
      ensures forall k :: k in entries && !(found.Hit? && k == key) ==> unchanged(entries[k])
    {
      hide Sorted;
      if key in entries {
        var client := entries[key];
        assert forall k :: k in entries ==> EntryOk(entries[k], k, at[k], clock);
        Stamp(client, now);
        found := Hit(client);
      } else if key in pending {
        found := Join(pending[key]);
      } else {
        var flight := new Flight(key);
        pending := pending[key := flight];
        found := Miss(flight);
      }
    }

    /** Makes room and stores the client. */
    method Fill(key: string, client: Client, now: int) returns (evicted: nat, ghost last: string)
      requires Valid() && clock < now < MAX_INT64 && key !in entries && key !in pending
      requires client.Valid() && client.key == key && !client.retired && !client.closed
      requires client.inflight >= 0 && Unknown(client)
      modifies this`entries, this`recent, this`at, this`clock, entries.Values`retired, entries.Values`closed,
               entries.Values`closes
      modifies client`inflight, client`lastUsed
      ensures Valid() && clock == now && client.lastUsed == now && client.inflight == old(client.inflight) + 1 &&
              client.Valid() && !client.closed
      ensures if |old(entries)| < max
              then evicted == 0 && entries == old(entries)[key := client] && recent == [key] + old(recent)
              else evicted == 1 && EndsIn(old(recent), last) && last in old(entries) && Retired(old(entries)[last]) &&
                   entries == (old(entries) - {last})[key := client] &&
                   recent == [key] + old(recent)[..|old(recent)| - 1]
    {
      hide Valid;
      evicted, last := MakeRoom(entries.Values);
      assert Unknown(client);
      Enter(key, client, now);
    }

    /** `insert`, and the acquisition after it: the client is stored in the place of the one used longest ago if the
        cache is full. */
    method Insert(key: string, client: Client, now: int) returns (evicted: nat, ghost last: string)
      requires Valid() && clock < now < MAX_INT64 && key !in entries && key !in pending
      requires client.Valid() && client.key == key && !client.retired && !client.closed
      requires client.inflight >= 0 && Unknown(client)
      modifies this`entries, this`recent, this`at, this`clock, entries.Values`retired, entries.Values`closed,
               entries.Values`closes
      modifies client`inflight, client`lastUsed
      ensures Valid() && clock == now && |old(recent)| == |old(entries)| && recent == Lru.Take(max, [key] + old(recent))
      ensures client.lastUsed == now && client.inflight == old(client.inflight) + 1 && !client.retired &&
              !client.closed && client.Valid()
      ensures if |old(entries)| < max then evicted == 0 && entries == old(entries)[key := client]
              else evicted == 1 && EndsIn(old(recent), last) && last in old(entries) && Retired(old(entries)[last]) &&
                   entries == (old(entries) - {last})[key := client]
    {
      assert |entries| <= max && |recent| == |entries| by {
        Keys();
      }
      PushTake(recent, key, max);
      hide Valid;
      hide Lru.Take;
      evicted, last := Fill(key, client, now);
    }

    /** Not in the cache. */
    ghost predicate Unknown(client: Client)
      reads this`entries
    {
      forall k :: k in entries ==> entries[k] != client
    }

    /** `delete(c.pending, key)`. */
    method Settle(key: string)
      requires Valid() && key in pending
      modifies this`pending
      ensures Valid() && pending == old(pending) - {key} && key !in entries && key !in recent
    {
      hide Sorted;
      Keys();
      pending := pending - {key};
    }

    /** The cache holds nothing but what it held, and perhaps a client under one more key. */
    ghost static predicate Grown(now: map<string, Client>, was: map<string, Client>, key: string, client: Client?) {
      forall k :: k in now ==> (k in was && now[k] == was[k]) || (k == key && now[k] == client)
    }

    lemma GrownBy(was: map<string, Client>, key: string, client: Client, last: string)
      requires entries == was[key := client] || entries == (was - {last})[key := client]
      ensures Grown(entries, was, key, client)
    {
    }

    lemma GrownValues(was: map<string, Client>, key: string, client: Client?)
      requires Grown(entries, was, key, client)
      ensures forall k :: k in entries ==> entries[k] in was.Values || entries[k] == client
    {
    }

    /** A client as `c.build` returns it. */
    ghost static predicate New(client: Client, key: string)
      reads client
    {
      client.Valid() && client.key == key && !client.retired && !client.closed && client.inflight == 0
    }

    /** The second lock section of Get, after the build: what was pending is no longer, and a built client is stored and
        acquired. */
    method Publish(key: string, flight: Flight, built: Client?, now: int) returns (evicted: nat, ghost last: string)
      requires Valid() && clock < now < MAX_INT64 && key in pending && pending[key] == flight
      requires built != null ==> New(built, key) && Unknown(built)
      modifies this`entries, this`pending, this`recent, this`at, this`clock, entries.Values, built
      ensures Valid() && pending == old(pending) - {key} && clock == if built != null then now else old(clock)
      ensures recent == Lru.After(max, old(recent), Lru.Get(key, built != null))
      ensures built == null ==> evicted == 0 && entries == old(entries)
      ensures built != null ==> built.lastUsed == now && built.inflight == 1 && built.Valid() && !built.retired &&
                                !built.closed
      ensures built != null ==> key in entries && entries[key] == built &&
                                if |old(entries)| < max then evicted == 0 && entries == old(entries)[key := built]
                                else evicted == 1 && EndsIn(old(recent), last) && last in old(entries) &&
                                     Retired(old(entries)[last]) && entries == (old(entries) - {last})[key := built]
    {
      Settle(key);
      Lru.MissIs(max, recent, Lru.Get(key, built != null));
      hide Valid;
      hide Lru.After;
      if built == null {
        return 0, "";
      }
      evicted, last := Insert(key, built, now);
    }

    /** The lock section of `share`: a waiter acquires the client its flight brought, still cached or not. */
    method Share(flight: Flight, now: int) returns (client: Client?)
      requires Valid() && clock < now < MAX_INT64 && flight.landed && (flight.client != null ==> flight.client.Valid())
      modifies this`recent, this`at, this`clock, flight.client
      ensures Valid() && client == flight.client && clock == if client != null then now else old(clock)
      ensures client != null ==> client.lastUsed == now && client.inflight == old(client.inflight) + 1 &&
                                 client.closed == old(client.closed)
      ensures recent == if client != null && Cached(client) then Lru.Front(old(recent), client.key) else old(recent)
    {
      hide Sorted;
      client := flight.client;
      if client != null {
        Stamp(client, now);
      }
    }

    /** Whether Sweep leaves the client: someone holds it, or it has been used since the cutoff. */
    static predicate Stays(client: Client, cutoff: int)
      reads client
    {
      client.lastUsed >= cutoff || client.inflight != 0
    }

    /** What is left of `was` in the cache is as it was there; what is not has been retired. */
    ghost predicate Thinned(was: map<string, Client>)
      reads this, was.Values
    {
      forall k :: (k in entries ==> k in was && entries[k] == was[k]) &&
                  (k in was ==> was[k].key == k && (k in entries || Retired(was[k])))
    }

    lemma AllThinned()
      requires Valid()
      ensures Thinned(entries)
    {
      AllOk();
    }

    lemma ThinnedAt(was: map<string, Client>, key: string)
      requires Thinned(was) && key in entries
      ensures key in was && entries[key] == was[key] && forall k :: k in was && was[k] == entries[key] ==> k == key
    {
    }

    lemma ThinnedOut(was: map<string, Client>)
      requires Thinned(was) && entries.Keys == {}
      ensures forall k :: k in was ==> Retired(was[k])
    {
    }

    /** `evict`, in a loop over what the cache held before; nothing Sweep looks at changes. */
    method EvictFrom(key: string, client: Client, ghost was: map<string, Client>, ghost cutoff: int)
      requires Valid() && Thinned(was) && key in entries && entries[key] == client
      modifies this`entries, this`recent, this`at, client`retired, client`closed, client`closes
      ensures Valid() && Thinned(was) && entries == old(entries) - {key}
      ensures forall k :: k in was ==> Stays(was[k], cutoff) == old(Stays(was[k], cutoff))
    {
      ThinnedAt(was, key);
      hide Valid;
      TakeOut(key, client);
    }

    /** The loop of Close. */
    method EvictAll(ghost was: map<string, Client>, ghost all: set<Client>)
      requires Valid() && entries == was && forall k :: k in was ==> was[k] in all
      modifies this`entries, this`recent, this`at, all`retired, all`closed, all`closes
      ensures Valid() && Thinned(was) && entries.Keys == {}
    {
      var left := entries.Keys;
      AllThinned();
      hide Valid;
      hide Thinned;
      while left != {}
        invariant Valid() && left == entries.Keys && Thinned(was)
        decreases |left|
      {
        var key :| key in left;
        left := left - {key};
        assert key in was && entries[key] == was[key] by {
          ThinnedAt(was, key);
        }
        EvictFrom(key, entries[key], was, 0);
      }
    }

    /** Empties the cache: what nobody holds is closed, what somebody holds is left to its last holder. */
    method Close()
      requires Valid()
      modifies this`entries, this`recent, this`at, entries.Values`retired, entries.Values`closed, entries.Values`closes
      ensures Valid() && entries == map[] && recent == []
      ensures forall k :: k in old(entries) ==> Retired(old(entries)[k])
    {
      ghost var was := entries;
      EvictAll(was, was.Values);
      ThinnedOut(was);
      Keys();
    }

    /** Sweep has looked at every entry of `was` but those in `left`. */
    ghost predicate Swept(was: map<string, Client>, cutoff: int, left: set<string>)
      reads this, was.Values
    {
      forall k :: k in was && k !in left ==> (k in entries <==> Stays(was[k], cutoff))
    }

    /** One round of the loop of Sweep. */
    method SweepOne(key: string, client: Client, cutoff: int, ghost was: map<string, Client>, ghost left: set<string>)
      returns (gone: bool)
      requires Valid() && Thinned(was) && key in entries && entries[key] == client && Swept(was, cutoff, left + {key})
      modifies this`entries, this`recent, this`at, client`retired, client`closed, client`closes
      ensures Valid() && Thinned(was) && Swept(was, cutoff, left)
      ensures entries == if gone then old(entries) - {key} else old(entries)
    {
      hide Valid;
      gone := client.lastUsed < cutoff && client.inflight == 0;
      if gone {
        EvictFrom(key, client, was, cutoff);
      }
      forall k | k in was && k !in left ensures k in entries <==> Stays(was[k], cutoff) {
        if k != key {
          assert k !in left + {key};
        }
      }
    }

    /** The loop of Sweep. */
    method SweepAll(cutoff: int, ghost was: map<string, Client>, ghost all: set<Client>) returns (n: nat)
      requires Valid() && entries == was && forall k :: k in was ==> was[k] in all
      modifies this`entries, this`recent, this`at, all`retired, all`closed, all`closes
      ensures Valid() && Thinned(was) && Swept(was, cutoff, {}) && n == |was| - |entries|
    {
      n := 0;
      var left := entries.Keys;
      AllThinned();
      hide Valid;
      hide Thinned;
      while left != {}
        invariant Valid() && left <= entries.Keys && Thinned(was) && Swept(was, cutoff, left)
        invariant n == |was| - |entries|
        decreases |left|
      {
        var key :| key in left;
        left := left - {key};
        assert key in was && entries[key] == was[key] by {
          ThinnedAt(was, key);
        }
        var gone := SweepOne(key, entries[key], cutoff, was, left);
        if gone {
          n := n + 1;
        }
      }
    }

    lemma AllOk()
      requires Valid()
      ensures forall k :: k in entries ==> entries[k].key == k && !entries[k].retired && !entries[k].closed
    {
      assert forall k :: k in entries ==> EntryOk(entries[k], k, at[k], clock);
    }

    /** Removes exactly the entries that nobody holds and nobody has used since the cutoff, closes them, and counts
        them. */
    method Sweep(now: int) returns (n: nat)
      requires Valid()
      modifies this`entries, this`recent, this`at, entries.Values`retired, entries.Values`closed, entries.Values`closes
      ensures Valid() && forall k :: k in entries ==> k in old(entries) && entries[k] == old(entries)[k]
      ensures forall k :: k in old(entries) ==>
                (k !in entries <==> old(entries[k].lastUsed) < now - idleTtl && old(entries[k].inflight) == 0)
      ensures n == |old(entries)| - |entries|
      ensures forall k :: k in old(entries) && k !in entries ==> old(entries)[k].retired && old(entries)[k].closed
    {
      hide Valid;
      n := SweepAll(now - idleTtl, entries, entries.Values);
    }

    /** What Get does when it has registered a flight: build, publish, land. */
    method Fly(key: string, flight: Flight, built: Client?, now: int) returns (evicted: nat)
      requires Valid() && clock < now < MAX_INT64 && key in pending && pending[key] == flight
      requires built != null ==> New(built, key) && Unknown(built)
      modifies this`entries, this`pending, this`recent, this`at, this`clock, entries.Values, built, flight
      ensures Valid() && pending == old(pending) - {key} && flight.landed && flight.client == built
      ensures clock == if built != null then now else old(clock)
      ensures recent == Lru.After(max, old(recent), Lru.Get(key, built != null)) &&
              Grown(entries, old(entries), key, built)
      ensures evicted == if built != null && |old(entries)| == max then 1 else 0
      ensures built != null ==> built.lastUsed == now && built.inflight == 1 && built.Valid() && !built.closed &&
                                key in entries &&
                                entries[key] == built
    {
      assert |entries| <= max;
      hide Valid;
      hide Lru.After;
      hide Retired;
      ghost var last;
      evicted, last := Publish(key, flight, built, now);
      assert Grown(entries, old(entries), key, built) by {
        if built != null {
          GrownBy(old(entries), key, built, last);
        }
      }
      hide Grown;
      flight.Land(built);
    }

    /** `c.build`. */
    static method MakeClient(key: string, s: Spec, builds: bool) returns (client: Client?)
      ensures client != null <==> builds
      ensures client != null ==>
                fresh(client) && client.spec == s && New(client, key)
    {
      client := null;
      if builds {
        client := new Client(s, key);
      }
    }

    /** The miss: the client is built, if it can be, and published. */
    method Build(key: string, flight: Flight, s: Spec, builds: bool, now: int) returns (client: Client?, evicted: nat)
      requires Valid() && clock < now < MAX_INT64 && key in pending && pending[key] == flight
      modifies this`entries, this`pending, this`recent, this`at, this`clock, entries.Values, flight
      ensures Valid() && pending == old(pending) - {key} && clock == if builds then now else old(clock)
      ensures recent == Lru.After(max, old(recent), Lru.Get(key, builds)) && Grown(entries, old(entries), key, client)
      ensures client != null <==> builds
      ensures client != null ==> fresh(client) && client.spec == s && client.inflight == 1 && client.Valid() &&
                                 !client.closed
      ensures client != null ==> client.lastUsed == now && client.key == key && key in entries && entries[key] == client
      ensures flight.landed && flight.client == client
      ensures evicted == if builds && |old(entries)| == max then 1 else 0
    {
      hide Valid;
      client := MakeClient(key, s, builds);
      evicted := Fly(key, flight, client, now);
    }

    /** How many hold the client of a key: those of the cached one, or the one that is building it. */
    ghost function Holdings(): map<string, int>
      reads this, entries.Values
    {
      map k | k in entries.Keys + pending.Keys :: if k in entries then entries[k].inflight else 1
    }

    ghost static function Held(holdings: map<string, int>, key: string): int {
      if key in holdings then holdings[key] else 0
    }

    lemma HeldIs(key: string)
      requires Valid()
      ensures Held(Holdings(), key) == if key in entries then entries[key].inflight else if key in pending then 1 else 0
      ensures Held(Holdings(), key) >= 0 && (key in pending ==> key !in entries)
    {
      hide Sorted;
      assert forall k :: k in entries ==> EntryOk(entries[k], k, at[k], clock);
    }

    /** A client as Get hands it out: open, built from this spec, and in one more pair of hands than before. */
    ghost static predicate Handed(client: Client, s: Spec, before: int)
      reads client
    {
      client.spec == s && client.Valid() && !client.closed && client.inflight == before + 1 >= 1
    }

    /** Both lock sections of a Get that nobody else interrupts, and the build between them if there is nothing to
        share. */
    method GetKey(key: string, s: Spec, builds: bool, t0: int, t1: int)
      returns (client: Client?, hit: bool, evicted: nat)
      requires Valid() && clock < t0 < t1 < MAX_INT64 && key !in pending
      modifies this, entries.Values
      ensures Valid() && pending == old(pending) && recent == Lru.After(max, old(recent), Lru.Get(key, builds)) &&
              clock <= t1
      ensures hit == (key in old(entries)) && (hit ==> client == old(entries)[key])
      ensures client == null <==> !hit && !builds
      ensures client != null ==> Handed(client, if hit then client.spec else s, Held(old(Holdings()), key)) &&
                                 Cached(client)
      ensures client != null && !hit ==> fresh(client)
      ensures client != null ==> t0 <= client.lastUsed <= t1
      ensures evicted == if !hit && builds && |old(entries)| == max then 1 else 0
      ensures Grown(entries, old(entries), key, client)
    {
      hide Sorted;
      Keys();
      HeldIs(key);
      hide Holdings;
      ghost var was := pending;
      evicted := 0;
      var found := Lookup(key, t0);
      hit := found.Hit?;
      if hit {
        client := found.client;
        assert EntryOk(entries[key], key, at[key], clock);
      } else {
        Entered(was, key, found.flight);
        client, evicted := Build(key, found.flight, s, builds, t1);
      }
    }

    /** Every client was built from the spec its key is the text of. */
    ghost static predicate AllFaithful(entries: map<string, Client>) {
      forall k :: k in entries ==> k == Key(entries[k].spec)
    }

    ghost predicate Faithful()
      reads this
    {
      AllFaithful(entries)
    }

    lemma GrownFaithfully(was: map<string, Client>, client: Client?, s: Spec)
      requires AllFaithful(was) && Grown(entries, was, Key(s), client)
      requires client != null ==> (Key(s) in was && was[Key(s)] == client) || client.spec == s
      ensures Faithful() && (client != null ==> client.spec == s)
    {
      if client != null && Key(s) in was && was[Key(s)] == client {
        KeyInjective(client.spec, s);
      }
    }

    /** A Get of a key that nobody is building: the list moves as the simple form does, and whoever is returned was
        built from this very spec. */
    method GetAlone(s: Spec, builds: bool, t0: int, t1: int) returns (client: Client?, hit: bool, evicted: nat)
      requires Valid() && Faithful() && clock < t0 < t1 < MAX_INT64 && Key(s) !in pending
      modifies this, entries.Values
      ensures Valid() && Faithful() && pending == old(pending) && clock <= t1
      ensures recent == Lru.After(max, old(recent), Lru.Get(Key(s), builds))
      ensures hit == (Key(s) in old(entries)) && (client == null <==> !hit && !builds)
      ensures client != null ==> Handed(client, s, Held(old(Holdings()), Key(s))) && Cached(client)
      ensures client != null ==> if hit then client == old(entries)[Key(s)] else fresh(client)
      ensures client != null ==> t0 <= client.lastUsed <= t1
      ensures evicted == if !hit && builds && |old(entries)| == max then 1 else 0
      ensures forall k :: k in entries ==> entries[k] in old(entries).Values || fresh(entries[k])
    {
      hide Valid;
      hide Holdings;
      hide Lru.After;
      hide Key;
      ghost var was := entries;
      client, hit, evicted := GetKey(Key(s), s, builds, t0, t1);
      GrownFaithfully(was, client, s);
    }

    lemma FrontIsFront(key: string)
      requires Valid() && recent != [] && recent[0] == key
      ensures Lru.Front(recent, key) == recent
    {
      SortedKeys(recent, at);
      Lru.FrontAgain(recent, key);
    }

    /** The build of a flight that somebody waits for, and then the waiter's share. */
    method BuildAndShare(key: string, flight: Flight, s: Spec, other: bool, t1: int, t2: int)
      returns (client: Client?, evicted: nat)
      requires Valid() && clock < t1 < t2 < MAX_INT64 && key in pending && pending[key] == flight
      modifies this, entries.Values, flight
      ensures Valid() && pending == old(pending) - {key} && Grown(entries, old(entries), key, client) && clock <= t2
      ensures client != null <==> other
      ensures client != null ==> fresh(client) && client.spec == s && client.inflight == 2 && client.Valid() &&
                                 !client.closed
      ensures recent == Lru.After(max, old(recent), Lru.Get(key, other)) && (client != null ==> Cached(client))
      ensures client != null ==> client.lastUsed == t2
      ensures evicted == if other && |old(entries)| == max then 1 else 0
    {
      assert key !in recent && 1 <= max &&
             Lru.After(max, recent, Lru.Get(key, true)) == Lru.Take(max, [key] + recent) by {
        Keys();
        Lru.MissIs(max, recent, Lru.Get(key, true));
      }
      BuiltIsFront(max, recent, key);
      hide Valid;
      hide Lru.After;
      hide Lru.Take;
      hide Grown;
      var built;
      built, evicted := Build(key, flight, s, other, t1);
      if built != null {
        FrontIsFront(key);
      }
      hide Lru.Front;
      client := Share(flight, t2);
    }

    /** The first lock section of a Get whose key is being built. */
    method JoinPending(key: string, now: int) returns (flight: Flight)
      requires Valid() && clock < now < MAX_INT64 && key in pending
      modifies this`entries, this`pending, this`recent, this`at, this`clock, entries.Values
      ensures Valid() && flight == old(pending)[key] && entries == old(entries) && pending == old(pending)
      ensures recent == old(recent) && clock == old(clock)
    {
      assert key !in entries;
      hide Valid;
      var found := Lookup(key, now);
      flight := found.flight;
    }

    /** A Get that finds its key being built. While it waits, the Get that registered the flight goes on: its build
        returns, for the same spec, and is published; then this one shares what came of it, a client now held by both or
        nothing. */
    method JoinFlight(s: Spec, flight: Flight, other: bool, t0: int, t1: int, t2: int)
      returns (client: Client?, evicted: nat)
      requires Valid() && Faithful() && clock < t0 < t1 < t2 < MAX_INT64 && Key(s) in pending &&
               pending[Key(s)] == flight
      modifies this, entries.Values, flight
      ensures Valid() && Faithful() && pending == old(pending) - {Key(s)} && clock <= t2
      ensures client != null <==> other
      ensures client != null ==> fresh(client) && Handed(client, s, Held(old(Holdings()), Key(s))) &&
                                 client.inflight == 2
      ensures recent == Lru.After(max, old(recent), Lru.Get(Key(s), other)) && (client != null ==> Cached(client))
      ensures client != null ==> client.lastUsed == t2
      ensures forall k :: k in entries ==> entries[k] in old(entries).Values || fresh(entries[k])
      ensures evicted == if other && |old(entries)| == max then 1 else 0
      ensures Key(s) !in old(entries)
    {
      hide Key;
      HeldIs(Key(s));
      hide Holdings;
      hide Valid;
      hide Lru.After;
      ghost var was := entries;
      var joined := JoinPending(Key(s), t0);
      client, evicted := BuildAndShare(Key(s), joined, s, other, t1, t2);
      GrownFaithfully(was, client, s);
      GrownValues(was, Key(s), client);
      hide Grown;
    }

    /** Any Get: a hit, a build, or a share of the build under way. Whoever is returned is cached, open, and built from
        this very spec; the list moves as the simple form does, whoever it is that builds. */
    method Get(s: Spec, builds: bool, t0: int, t1: int, t2: int) returns (client: Client?, evicted: nat)
      requires Valid() && Faithful() && clock < t0 < t1 < t2 < MAX_INT64
      modifies this, entries.Values, pending.Values
      ensures Valid() && Faithful() && pending == old(pending) - {Key(s)} && clock <= t2
      ensures recent == Lru.After(max, old(recent), Lru.Get(Key(s), builds))
      ensures client == null <==> Key(s) !in old(entries) && !builds
      ensures client != null ==> Handed(client, s, Held(old(Holdings()), Key(s))) && Cached(client)
      ensures client != null ==>
                if Key(s) in old(entries) then client == old(entries)[Key(s)] && client in old(entries.Values)
                  else fresh(client)
      ensures client != null ==> t0 <= client.lastUsed <= t2
      ensures forall k :: k in entries ==> entries[k] in old(entries).Values || fresh(entries[k])
      ensures evicted == if Key(s) !in old(entries) && builds && |old(entries)| == max then 1 else 0
    {
      hide Valid;
      hide Holdings;
      hide Handed;
      hide Faithful;
      hide Lru.After;
      hide Key;
      if Key(s) in pending {
        client, evicted := JoinFlight(s, pending[Key(s)], builds, t0, t1, t2);
      } else {
        var hit;
        client, hit, evicted := GetAlone(s, builds, t0, t1);
      }
    }

    /** Giving a client back leaves the cache as it should be, whether the client is still cached or not. */
    twostate lemma ReleaseKeeps(client: Client)
      requires old(Valid()) && unchanged(this) && client.Valid() && client.inflight >= 0
      requires client.retired == old(client.retired) && client.lastUsed == old(client.lastUsed)
      requires !client.retired ==> client.closed == old(client.closed)
      requires forall k :: k in entries && entries[k] != client ==> unchanged(entries[k])
      ensures Valid()
    {
      hide Sorted;
      forall k | k in entries ensures EntryOk(entries[k], k, at[k], clock) {
        assert old(EntryOk(entries[k], k, at[k], clock));
      }
    }

    lemma CachedIsOpen(client: Client)
      requires Valid() && Cached(client)
      ensures client.Valid() && !client.closed && !client.retired && client.inflight >= 0
    {
      assert EntryOk(client, client.key, at[client.key], clock);
    }

    lemma OneGone(was: map<string, Client>, key: string)
      requires key in was && key !in entries && forall k :: k in entries ==> k in was
      ensures |entries| < |was|
    {
      assert entries.Keys <= was.Keys - {key};
      FewerKeys(entries.Keys, was.Keys - {key});
      assert |was.Keys - {key}| == |was.Keys| - 1;
    }

    /** A sweep, as one cached client sees it. */
    method SweepPast(client: Client, now: int) returns (n: nat)
      requires Valid() && Cached(client)
      modifies this`entries, this`recent, this`at, entries.Values`retired, entries.Values`closed, entries.Values`closes
      ensures Valid() && forall k :: k in entries ==> k in old(entries) && entries[k] == old(entries)[k]
      ensures if client.lastUsed < now - idleTtl && client.inflight == 0
              then client.key !in entries && client.closed && n >= 1
              else Cached(client) && !client.closed
    {
      ghost var was := entries;
      hide Valid;
      n := Sweep(now);
      if client.key in entries {
        CachedIsOpen(client);
      } else {
        OneGone(was, client.key);
      }
    }

    /** A Release of a cached client. */
    method GiveBack(client: Client)
      requires Valid() && Cached(client) && client.inflight > 0
      modifies client`inflight, client`closed, client`closes
      ensures Valid() && Cached(client) && client.inflight == old(client.inflight) - 1
    {
      CachedIsOpen(client);
      hide Valid;
      client.Release();
      ReleaseKeeps(client);
    }

    /** The same, of a client that may be given back before. */
    method ReleaseAndSweep(client: Client, release: bool, now: int) returns (n: nat)
      requires Valid() && Cached(client) && client.inflight > 0
      modifies this`entries, this`recent, this`at, entries.Values
      ensures Valid() && forall k :: k in entries ==> k in old(entries) && entries[k] == old(entries)[k]
      ensures client.lastUsed == old(client.lastUsed) && client.inflight == old(client.inflight) - if release then 1
              else 0
      ensures if client.lastUsed < now - idleTtl && client.inflight == 0
              then client.key !in entries && client.closed && n >= 1
              else Cached(client) && !client.closed
    {
      hide Valid;
      if release {
        GiveBack(client);
      }
      n := SweepPast(client, now);
    }

    /** What a sweep does to a client that a Get has handed out, and that may have been given back meanwhile: used since
        the cutoff, or still held, it stays cached and open; else it is removed and closed. */
    method GetAndSweep(s: Spec, builds: bool, t0: int, t1: int, t2: int, release: bool, now: int)
      returns (client: Client?, n: nat)
      requires Valid() && Faithful() && clock < t0 < t1 < t2 < MAX_INT64
      modifies this, entries.Values, pending.Values
      ensures Valid()
      ensures client != null ==> client.inflight == Held(old(Holdings()), Key(s)) + if release then 0 else 1
      ensures client != null && (now - idleTtl <= t0 || client.inflight > 0) ==> Cached(client) && !client.closed
      ensures client != null && t2 < now - idleTtl && client.inflight == 0 ==>
                client.key !in entries && client.closed && n >= 1
    {
      hide Valid;
      hide Faithful;
      hide Holdings;
      hide Key;
      hide Lru.After;
      hide Cached;
      var evicted;
      client, evicted := Get(s, builds, t0, t1, t2);
      n := 0;
      if client != null {
        n := ReleaseAndSweep(client, release, now);
      }
    }
  }

  /** What a request asks of the cache, and whether its client could be built. */
  datatype Ask = Ask(spec: Spec, builds: bool)

  function GetsOf(asks: seq<Ask>): (gets: seq<Lru.Get>)
    ensures |gets| == |asks|
  {
    if asks == [] then []
      else GetsOf(asks[..|asks| - 1]) + [Lru.Get(Key(asks[|asks| - 1].spec), asks[|asks| - 1].builds)]
  }

  lemma RunUnfolds(max: nat, asks: seq<Ask>, i: nat)
    requires i < |asks|
    ensures var g := Lru.Get(Key(asks[i].spec), asks[i].builds);
            var before, after := GetsOf(asks[..i]), GetsOf(asks[..i + 1]);
            Lru.Run(max, after) == Lru.After(max, Lru.Run(max, before), g) &&
            Lru.Misses(max, after) == Lru.Misses(max, before) + if g.key in Lru.Run(max, before) then 0 else 1
  {
    assert asks[..i + 1][..i] == asks[..i];
    var before, after := GetsOf(asks[..i]), GetsOf(asks[..i + 1]);
    assert after[..i] == before;
  }

  /** The first and the last reading of the clock in the i-th Get. */
  ghost predicate Ticks(times: seq<int>, n: nat) {
    |times| == 2 * n && forall i, j :: 0 <= i < j < |times| ==> 0 < times[i] < times[j] < MAX_INT64
  }

  /** Between Gets: nothing is being built, the clock stands at `clock` or before, and the simple form has come this
      far. */
  ghost predicate Follows(cache: Cache, asks: seq<Ask>, misses: nat, clock: int)
    reads cache, cache.entries.Values
  {
    cache.Valid() && cache.Faithful() && cache.pending == map[] && cache.clock <= clock &&
    cache.recent == Lru.Run(cache.max, GetsOf(asks)) && misses == Lru.Misses(cache.max, GetsOf(asks))
  }

  method GetFirst(max: int, idleTtl: int) returns (cache: Cache)
    requires 1 <= max
    ensures fresh(cache) && cache.max == max && cache.entries == map[] && Follows(cache, [], 0, 0)
  {
    cache := new Cache(max, idleTtl);
  }

  method GetNext(cache: Cache, asks: seq<Ask>, i: nat, misses: nat, ghost clock: int, t0: int, t1: int)
    returns (misses': nat)
    requires i < |asks| && Follows(cache, asks[..i], misses, clock) && clock < t0 < t1 < MAX_INT64
    modifies cache, cache.entries.Values
    ensures Follows(cache, asks[..i + 1], misses', t1)
    ensures forall k :: k in cache.entries ==> cache.entries[k] in old(cache.entries.Values) || fresh(cache.entries[k])
  {
    hide Key;
    RunUnfolds(cache.max, asks, i);
    assert Key(asks[i].spec) in cache.entries <==> Key(asks[i].spec) in cache.recent by {
      cache.Keys();
    }
    hide Cache.Valid;
    hide Cache.Faithful;
    hide Cache.Handed;
    hide Lru.After;
    hide Lru.Run;
    hide Lru.Misses;
    var client, hit, evicted := cache.GetAlone(asks[i].spec, asks[i].builds, t0, t1);
    misses' := misses + if hit then 0 else 1;
  }

  /** The reading of the clock that n Gets end at. */
  function Tick(times: seq<int>, n: nat): int
    requires 2 * n <= |times|
  {
    if n == 0 then 0 else times[2 * n - 1]
  }

  /** Any Gets, one after another on a new cache, at strictly increasing readings of the clock: its keys, by use, are
      those of the simple form, and it misses exactly as often. */
  method GetAll(max: int, idleTtl: int, asks: seq<Ask>, times: seq<int>) returns (cache: Cache, misses: nat)
    requires 1 <= max && Ticks(times, |asks|)
    ensures fresh(cache) && cache.max == max && Follows(cache, asks, misses, Tick(times, |asks|))
  {
    hide Follows;
    cache := GetFirst(max, idleTtl);
    misses := 0;
    for i := 0 to |asks|
      invariant fresh(cache) && cache.max == max && forall k :: k in cache.entries ==> fresh(cache.entries[k])
      invariant Follows(cache, asks[..i], misses, Tick(times, i))
    {
      misses := GetNext(cache, asks, i, misses, Tick(times, i), times[2 * i], times[2 * i + 1]);
    }
    assert asks[..|asks|] == asks;
  }

  /** Retired, and closed if nobody holds it. */
  ghost predicate Retired(c: Client)
    reads c
  {
    c.retired && c.closed == (c.inflight == 0)
  }
}
