/** Move-to-front lists: the simple form that the cache's map and timestamps refine, and what it keeps of a sequence of
    Gets. */
module Lru {
  type Key = string

  /** A completed Get: the key asked for, and whether a build for it would succeed. */
  datatype Get = Get(key: Key, builds: bool)

  function Without(keys: seq<Key>, k: Key): seq<Key> {
    if keys == [] then []
    else if keys[0] == k then Without(keys[1..], k)
    else [keys[0]] + Without(keys[1..], k)
  }

  function Take(n: nat, keys: seq<Key>): seq<Key> {
    if n <= |keys| then keys[..n] else keys
  }

  function Front(keys: seq<Key>, k: Key): seq<Key> { [k] + Without(keys, k) }

  /** The cache after a Get, most recent key first: a hit moves its key to the front, a built client enters there and
      pushes out the last, a failed build changes nothing. */
  function After(cap: nat, keys: seq<Key>, g: Get): seq<Key> {
    if g.key in keys then Front(keys, g.key)
    else if g.builds then Take(cap, [g.key] + keys)
    else keys
  }

  function Run(cap: nat, gets: seq<Get>): seq<Key> {
    if gets == [] then [] else After(cap, Run(cap, gets[..|gets| - 1]), gets[|gets| - 1])
  }

  /** Whether the last Get of the sequence returned a client. */
  predicate Serves(cap: nat, gets: seq<Get>)
    requires gets != []
  {
    var n := |gets| - 1;
    gets[n].builds || gets[n].key in Run(cap, gets[..n])
  }

  /** Using the front key again changes nothing. */
  lemma FrontAgain(keys: seq<Key>, k: Key)
    requires Distinct(keys) && keys != [] && keys[0] == k
    ensures Front(keys, k) == keys
  {
    WithoutKeeps(keys[1..], k);
    assert keys == [k] + keys[1..];
  }

  lemma MissIs(cap: nat, keys: seq<Key>, g: Get)
    requires g.key !in keys
    ensures After(cap, keys, g) == if g.builds then Take(cap, [g.key] + keys) else keys
  {
  }

  /** The keys of the Gets that returned a client, in order. */
  function Served(cap: nat, gets: seq<Get>): seq<Key> {
    if gets == [] then []
    else
      var n := |gets| - 1;
      Served(cap, gets[..n]) + if Serves(cap, gets) then [gets[n].key] else []
  }

  /** The distinct keys of a sequence, the one used last first. */
  function Recency(uses: seq<Key>): seq<Key> {
    if uses == [] then [] else Front(Recency(uses[..|uses| - 1]), uses[|uses| - 1])
  }

  ghost predicate Distinct(keys: seq<Key>) {
    forall i, j :: 0 <= i < j < |keys| ==> keys[i] != keys[j]
  }

  lemma {:induction false} WithoutKeeps(keys: seq<Key>, k: Key)
    ensures forall x :: x in Without(keys, k) <==> x in keys && x != k
    ensures |Without(keys, k)| <= |keys|
    ensures k !in keys ==> Without(keys, k) == keys
    ensures Distinct(keys) ==> Distinct(Without(keys, k)) && (k in keys ==> |Without(keys, k)| == |keys| - 1)
  {
    if keys != [] {
      WithoutKeeps(keys[1..], k);
      assert keys == [keys[0]] + keys[1..];
      if keys[0] != k && Distinct(keys) {
        assert keys[0] !in keys[1..];
      }
    }
  }

  lemma {:induction false} TakeHit(keys: seq<Key>, k: Key, n: nat)
    requires Distinct(keys) && k in Take(n + 1, keys)
    ensures Take(n, Without(keys, k)) == Without(Take(n + 1, keys), k)
  {
    var first := Take(n + 1, keys);
    assert first[1..] == Take(n, keys[1..]);
    if keys[0] == k {
      WithoutKeeps(keys[1..], k);
      WithoutKeeps(first[1..], k);
    } else {
      assert first[0] == keys[0] && k in first[1..];
      TakeHit(keys[1..], k, n - 1);
      assert Take(n, Without(keys, k)) == [keys[0]] + Take(n - 1, Without(keys[1..], k));
    }
  }

  lemma {:induction false} TakeMiss(keys: seq<Key>, k: Key, n: nat)
    requires k !in Take(n, keys)
    ensures Take(n, Without(keys, k)) == Take(n, keys)
  {
    if n > 0 && keys != [] {
      assert keys[0] == Take(n, keys)[0];
      assert Take(n, keys)[1..] == Take(n - 1, keys[1..]);
      TakeMiss(keys[1..], k, n - 1);
    }
  }

  lemma {:induction false} RecencyDistinct(uses: seq<Key>)
    ensures Distinct(Recency(uses)) && forall k :: k in Recency(uses) <==> k in uses
  {
    if uses != [] {
      var n := |uses| - 1;
      RecencyDistinct(uses[..n]);
      WithoutKeeps(Recency(uses[..n]), uses[n]);
      assert uses == uses[..n] + [uses[n]];
    }
  }

  /** Moving a key to the front of the whole list moves or enters it at the front of its first `cap`. */
  lemma FrontTake(cap: nat, keys: seq<Key>, k: Key)
    requires cap >= 1 && Distinct(keys)
    ensures Take(cap, Front(keys, k)) == After(cap, Take(cap, keys), Get(k, true))
  {
    assert Take(cap, Front(keys, k)) == [k] + Take(cap - 1, Without(keys, k));
    if k in Take(cap, keys) {
      TakeHit(keys, k, cap - 1);
    } else {
      TakeMiss(keys, k, cap - 1);
      assert Take(cap, [k] + Take(cap, keys)) == [k] + Take(cap - 1, keys);
    }
  }

  /** The cache is the first `cap` of the distinct keys served, most recent first. */
  lemma {:induction false} RunIsRecency(cap: nat, gets: seq<Get>)
    requires cap >= 1
    ensures Run(cap, gets) == Take(cap, Recency(Served(cap, gets)))
  {
    if gets != [] {
      var n := |gets| - 1;
      RunIsRecency(cap, gets[..n]);
      var l := Recency(Served(cap, gets[..n]));
      var g := gets[n];
      RecencyDistinct(Served(cap, gets[..n]));
      if Serves(cap, gets) {
        var uses := Served(cap, gets);
        assert uses == Served(cap, gets[..n]) + [g.key] && uses[..|uses| - 1] == Served(cap, gets[..n]);
        assert Recency(uses) == Front(l, g.key);
        FrontTake(cap, l, g.key);
      } else {
        assert Served(cap, gets) == Served(cap, gets[..n]);
      }
    }
  }

  /** The uses after the last one of k. */
  function Since(uses: seq<Key>, k: Key): seq<Key>
    requires k in uses
  {
    var n := |uses| - 1;
    if uses[n] == k then [] else Since(uses[..n], k) + [uses[n]]
  }

  function Elems(keys: seq<Key>): set<Key> { set k | k in keys }

  /** The keys in front of k. */
  function Before(keys: seq<Key>, k: Key): seq<Key> {
    if keys == [] || keys[0] == k then [] else [keys[0]] + Before(keys[1..], k)
  }

  lemma {:induction false} BeforeWithout(keys: seq<Key>, u: Key, k: Key)
    requires u != k
    ensures Before(Without(keys, u), k) == Without(Before(keys, k), u)
  {
    if keys != [] && keys[0] != k {
      BeforeWithout(keys[1..], u, k);
    }
  }

  lemma {:induction false} BeforeTake(keys: seq<Key>, k: Key, n: nat)
    ensures k in Take(n, keys) <==> k in keys && |Before(keys, k)| < n
    ensures Distinct(keys) ==> |Elems(Before(keys, k))| == |Before(keys, k)|
    ensures forall x :: x in Before(keys, k) ==> x in keys
  {
    if keys != [] && keys[0] != k {
      var rest := keys[1..];
      BeforeTake(rest, k, if n == 0 then 0 else n - 1);
      assert keys == [keys[0]] + rest;
      assert n > 0 ==> Take(n, keys) == [keys[0]] + Take(n - 1, rest);
      if Distinct(keys) {
        assert keys[0] !in rest;
        assert Elems(Before(keys, k)) == {keys[0]} + Elems(Before(rest, k));
      }
    } else if keys != [] {
      assert n > 0 ==> Take(n, keys)[0] == k;
    }
  }

  lemma {:induction false} BeforeIsSince(uses: seq<Key>, k: Key)
    requires k in uses
    ensures Elems(Before(Recency(uses), k)) == Elems(Since(uses, k))
  {
    var n := |uses| - 1;
    if uses[n] != k {
      assert k in uses[..n];
      BeforeIsSince(uses[..n], k);
      var l := Recency(uses[..n]);
      BeforeWithout(l, uses[n], k);
      WithoutKeeps(Before(l, k), uses[n]);
      assert Before(Front(l, uses[n]), k) == [uses[n]] + Before(Without(l, uses[n]), k);
      assert Elems(Before(Recency(uses), k)) == Elems(Before(l, k)) + {uses[n]};
      assert Elems(Since(uses, k)) == Elems(Since(uses[..n], k)) + {uses[n]};
    }
  }

  /** A key is cached exactly when it has been served, and fewer than `cap` other keys have been served since it last
      was. */
  lemma CachedExactly(cap: nat, gets: seq<Get>, k: Key)
    requires cap >= 1
    ensures var uses := Served(cap, gets);
            k in Run(cap, gets) <==> k in uses && |Elems(Since(uses, k))| < cap
  {
    var uses := Served(cap, gets);
    RunIsRecency(cap, gets);
    RecencyDistinct(uses);
    BeforeTake(Recency(uses), k, cap);
    if k in uses {
      BeforeIsSince(uses, k);
    }
  }

  // More room never hurts

  /** Whether a build succeeds depends only on the key. */
  ghost predicate Steady(gets: seq<Get>) {
    forall i, j :: 0 <= i < |gets| && 0 <= j < |gets| && gets[i].key == gets[j].key ==> gets[i].builds == gets[j].builds
  }

  lemma {:induction false} CachedBuilds(cap: nat, gets: seq<Get>, k: Key)
    requires k in Run(cap, gets)
    ensures exists i :: 0 <= i < |gets| && gets[i].key == k && gets[i].builds
  {
    var n := |gets| - 1;
    WithoutKeeps(Run(cap, gets[..n]), gets[n].key);
    if k in Run(cap, gets[..n]) {
      CachedBuilds(cap, gets[..n], k);
    } else {
      assert k == gets[n].key;
    }
  }

  /** What is served then does not depend on the capacity. */
  lemma {:induction false} ServedAlike(m: nat, n: nat, gets: seq<Get>)
    requires Steady(gets)
    ensures Served(m, gets) == Served(n, gets)
  {
    if gets != [] {
      var last := |gets| - 1;
      ServedAlike(m, n, gets[..last]);
      if gets[last].key in Run(m, gets[..last]) {
        CachedBuilds(m, gets[..last], gets[last].key);
      }
      if gets[last].key in Run(n, gets[..last]) {
        CachedBuilds(n, gets[..last], gets[last].key);
      }
    }
  }

  /** The smaller cache is always the front of the larger one. */
  lemma Inclusion(m: nat, n: nat, gets: seq<Get>)
    requires 1 <= m <= n && Steady(gets)
    ensures Run(m, gets) == Take(m, Run(n, gets))
    ensures forall k :: k in Run(m, gets) ==> k in Run(n, gets)
  {
    ServedAlike(m, n, gets);
    RunIsRecency(m, gets);
    RunIsRecency(n, gets);
  }

  function Misses(cap: nat, gets: seq<Get>): nat {
    if gets == [] then 0
    else
      var n := |gets| - 1;
      Misses(cap, gets[..n]) + if gets[n].key in Run(cap, gets[..n]) then 0 else 1
  }

  /** The larger cache misses no more often. */
  lemma {:induction false} MissesFall(m: nat, n: nat, gets: seq<Get>)
    requires 1 <= m <= n && Steady(gets)
    ensures Misses(n, gets) <= Misses(m, gets)
  {
    if gets != [] {
      MissesFall(m, n, gets[..|gets| - 1]);
      Inclusion(m, n, gets[..|gets| - 1]);
    }
  }

  lemma TakeDropsLast(cap: nat, keys: seq<Key>, key: Key)
    requires cap >= 1 && |keys| <= cap
    ensures forall k :: k in keys && k !in Take(cap, [key] + keys) ==> |keys| == cap && k == keys[cap - 1]
  {
    forall i | 0 <= i < |keys| && i < cap - 1 ensures keys[i] in Take(cap, [key] + keys) {
      assert Take(cap, [key] + keys)[i + 1] == keys[i];
    }
  }

  /** A Get leaves distinct keys distinct and within the capacity, and takes out at most one: the least recent. */
  lemma AfterKeeps(cap: nat, keys: seq<Key>, g: Get)
    requires cap >= 1 && Distinct(keys) && |keys| <= cap
    ensures Distinct(After(cap, keys, g)) && |After(cap, keys, g)| <= cap
    ensures forall k :: k in keys && k !in After(cap, keys, g) ==> |keys| == cap && k == keys[cap - 1] && g.key !in keys
  {
    WithoutKeeps(keys, g.key);
    if g.key !in keys && g.builds {
      TakeDropsLast(cap, keys, g.key);
    }
  }
}
