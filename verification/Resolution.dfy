/** Resolve and choose on the slices that they are given. Filters work in place, on copies: what the caller passed in,
    and what others share with it, stays as it is. */
module Resolution {
  import opened Identity
  import opened Options

  /** A slice from the front of an array. */
  datatype Slice = Slice(cells: array<string>, len: nat) {
    ghost predicate Valid() { len <= cells.Length }

    ghost function Items(): seq<string>
      requires Valid()
      reads cells
    {
      cells[..len]
    }
  }

  /** `slices.Clone`. */
  method Clone(s: Slice) returns (copy: Slice)
    requires s.Valid()
    ensures copy.Valid() && fresh(copy.cells) && copy.len == copy.cells.Length && copy.Items() == s.Items()
  {
    var cells := new string[s.len];
    for i := 0 to s.len
      invariant cells[..i] == s.cells[..i]
    {
      cells[i] := s.cells[i];
    }
    copy := Slice(cells, s.len);
  }

  /** `slices.Contains`. */
  method Contains(s: Slice, v: string) returns (found: bool)
    requires s.Valid()
    ensures found <==> v in s.Items()
  {
    for i := 0 to s.len
      invariant v !in s.cells[..i]
    {
      if s.cells[i] == v {
        return true;
      }
    }
    found := false;
  }

  lemma {:induction false} KeepOneMore(want: seq<string>, v: string, available: seq<string>)
    ensures Keep(want + [v], available) == Keep(want, available) + if v in available then [v] else []
  {
    if want == [] {
      assert [] + [v] == [v] && [v][1..] == [];
    } else {
      KeepOneMore(want[1..], v, available);
      assert (want + [v])[1..] == want[1..] + [v];
    }
  }

  lemma PoolOfNone(os: seq<string>)
    ensures Pool([], os) == []
  {
  }

  lemma {:induction false} PoolOneMore(browsers: seq<string>, b: string, os: seq<string>)
    ensures Pool(browsers + [b], os) == Pool(browsers, os) + if Choose(os, Oses(b)) != [] then [b] else []
  {
    hide Choose;
    hide Oses;
    if browsers == [] {
      assert [] + [b] == [b] && [b][1..] == [];
    } else {
      PoolOneMore(browsers[1..], b, os);
      assert (browsers + [b])[1..] == browsers[1..] + [b];
    }
  }

  /** The cells that a filter has no use for any more are cleared. */
  method Clear(cells: array<string>, from: nat, to: nat)
    requires from <= to <= cells.Length
    modifies cells
    ensures cells[..from] == old(cells[..from]) && cells[to..] == old(cells[to..])
    ensures forall i :: from <= i < to ==> cells[i] == ""
  {
    for i := from to to
      invariant cells[..from] == old(cells[..from]) && cells[to..] == old(cells[to..])
      invariant forall k :: from <= k < i ==> cells[k] == ""
    {
      cells[i] := "";
    }
  }

  /** `slices.DeleteFunc` of what is not available, in place: the array is overwritten. */
  method DeleteAbsent(s: Slice, available: Slice) returns (left: Slice)
    requires s.Valid() && available.Valid() && available.cells != s.cells
    modifies s.cells
    ensures left.cells == s.cells && left.Valid() && left.Items() == Keep(old(s.Items()), available.Items())
    ensures left.len <= s.len && forall i :: left.len <= i < s.len ==> s.cells[i] == ""
  {
    ghost var was := s.Items();
    var n := 0;
    for j := 0 to s.len
      invariant n <= j && s.cells[..n] == Keep(was[..j], available.Items())
      invariant forall k :: j <= k < s.len ==> s.cells[k] == was[k]
    {
      KeepOneMore(was[..j], was[j], available.Items());
      assert was[..j + 1] == was[..j] + [was[j]];
      var v := s.cells[j];
      var there := Contains(available, v);
      if there {
        s.cells[n] := v;
        n := n + 1;
      }
    }
    assert was[..s.len] == was;
    Clear(s.cells, n, s.len);
    left := Slice(s.cells, n);
  }

  /** `choose`: a fresh slice, whatever is wanted. */
  method ChooseFrom(want: Slice, available: Slice) returns (chosen: Slice)
    requires want.Valid() && available.Valid()
    ensures chosen.Valid() && fresh(chosen.cells) && chosen.Items() == Choose(want.Items(), available.Items())
    ensures want.Items() == old(want.Items()) && available.Items() == old(available.Items())
  {
    var random := Contains(want, "random");
    if want.len == 0 || random {
      chosen := Clone(available);
      return;
    }
    var copy := Clone(want);
    chosen := DeleteAbsent(copy, available);
  }

  /** The table of systems that every request shares. */
  datatype Systems = Systems(table: map<string, Slice>, all: Slice) {
    ghost predicate Valid()
      reads all.cells, set b | b in table :: table[b].cells
    {
      all.Valid() && all.Items() == ALL_OSES && table.Keys == (set b | b in FAMILIES) &&
      forall b :: b in table ==> table[b].Valid() && table[b].Items() == Oses(b)
    }

    /** `OSes`: a copy of the family's list, or of the list of all. */
    method OsesOf(browser: string) returns (oses: Slice)
      requires Valid()
      ensures oses.Valid() && fresh(oses.cells) && oses.Items() == Oses(browser)
    {
      oses := Clone(if browser in table then table[browser] else all);
    }
  }

  /** `len(choose(d.Os, oses(b))) > 0`. */
  method HasSome(b: string, os: Slice, systems: Systems) returns (some: bool)
    requires os.Valid() && systems.Valid()
    ensures some <==> Choose(os.Items(), Oses(b)) != []
  {
    var oses := systems.OsesOf(b);
    var chosen := ChooseFrom(os, oses);
    assert |chosen.Items()| == chosen.len;
    some := chosen.len != 0;
  }

  /** `slices.DeleteFunc` of the browsers that no wanted OS is available for, in place. */
  method DeleteBarren(s: Slice, os: Slice, systems: Systems) returns (left: Slice)
    requires s.Valid() && s.cells != os.cells && os.Valid() && systems.Valid()
    requires s.cells != systems.all.cells && forall b :: b in systems.table ==> s.cells != systems.table[b].cells
    modifies s.cells
    ensures left.cells == s.cells && left.Valid() && left.len <= s.len &&
            left.Items() == Pool(old(s.Items()), os.Items())
    ensures forall i :: left.len <= i < s.len ==> s.cells[i] == ""
  {
    hide Choose;
    hide Oses;
    hide Pool;
    assert Pool([], os.Items()) == [] by {
      PoolOfNone(os.Items());
    }
    ghost var was := s.Items();
    var n := 0;
    for j := 0 to s.len
      invariant n <= j && s.cells[..n] == Pool(was[..j], os.Items())
      invariant forall k :: j <= k < s.len ==> s.cells[k] == was[k]
    {
      PoolOneMore(was[..j], was[j], os.Items());
      assert was[..j + 1] == was[..j] + [was[j]];
      var b := s.cells[j];
      var some := HasSome(b, os, systems);
      if some {
        s.cells[n] := b;
        n := n + 1;
      }
    }
    assert was[..s.len] == was;
    Clear(s.cells, n, s.len);
    left := Slice(s.cells, n);
  }

  /** One element of a slice, in a slice of its own. */
  method Single(v: string) returns (one: Slice)
    ensures one.Valid() && fresh(one.cells) && one.Items() == [v]
  {
    var cells := new string[1];
    cells[0] := v;
    one := Slice(cells, 1);
  }

  method PoolOf(browser: Slice, os: Slice, families: Slice, systems: Systems) returns (pool: Slice)
    requires browser.Valid() && os.Valid() && families.Valid() && systems.Valid()
    ensures pool.Valid() && fresh(pool.cells)
    ensures pool.Items() == Pool(Choose(browser.Items(), families.Items()), os.Items())
  {
    hide Choose;
    hide Pool;
    var chosen := ChooseFrom(browser, families);
    pool := DeleteBarren(chosen, os, systems);
  }

  method PickOs(os: Slice, browser: string, systems: Systems, a: Answers) returns (one: Slice)
    requires Fair(a) && os.Valid() && systems.Valid() && Choose(os.Items(), Oses(browser)) != []
    ensures one.Valid() && fresh(one.cells)
    ensures var oses := Choose(os.Items(), Oses(browser)); one.Items() == [oses[a.second(|oses|)]]
  {
    var oses := systems.OsesOf(browser);
    var left := ChooseFrom(os, oses);
    hide Choose;
    assert |left.Items()| == left.len;
    one := Single(left.cells[a.second(left.len)]);
  }

  method PickBoth(b: string, os: Slice, systems: Systems, a: Answers) returns (someBrowser: Slice, someOs: Slice)
    requires Fair(a) && os.Valid() && systems.Valid() && Choose(os.Items(), Oses(b)) != []
    ensures someBrowser.Valid() && someOs.Valid() && fresh(someBrowser.cells) && someBrowser.Items() == [b]
    ensures os.Items() == [] ==> someOs == os
    ensures os.Items() != [] ==>
              var oses := Choose(os.Items(), Oses(b));
              fresh(someOs.cells) && someOs.Items() == [oses[a.second(|oses|)]]
  {
    hide Choose;
    hide Oses;
    someOs := os;
    if os.len > 0 {
      someOs := PickOs(os, b, systems, a);
    }
    someBrowser := Single(b);
  }

  lemma ResolveUnfolds(w: Wish, a: Answers)
    requires Fair(a) && w.browser != []
    ensures var pool := Pool(Choose(w.browser, FAMILIES), w.os);
            if pool == [] then Resolve(w, a) == None
            else
              var b := pool[a.first(|pool|)];
              var oses := Choose(w.os, Oses(b));
              oses != [] &&
              Resolve(w, a) == Some(w.(browser := [b], os := if w.os == [] then [] else [oses[a.second(|oses|)]]))
  {
    var pool := Pool(Choose(w.browser, FAMILIES), w.os);
    hide Choose;
    hide Oses;
    if pool != [] {
      PoolIs(Choose(w.browser, FAMILIES), w.os, pool[a.first(|pool|)]);
    }
  }

  /** `Resolve`: the browsers and systems of the directive, or fresh slices that hold the identity picked. Nothing that
      was there before is altered: not the directive's lists, not the families, not the shared table. */
  method ResolveSlices(w: Wish, browser: Slice, os: Slice, families: Slice, systems: Systems, a: Answers)
    returns (ok: bool, someBrowser: Slice, someOs: Slice)
    requires Fair(a) && browser.Valid() && os.Valid() && families.Valid() && systems.Valid()
    requires browser.Items() == w.browser && os.Items() == w.os && families.Items() == FAMILIES
    ensures ok <==> Resolve(w, a).Some?
    ensures someBrowser.Valid() && someOs.Valid()
    ensures ok ==> someBrowser.Items() == Resolve(w, a).value.browser && someOs.Items() == Resolve(w, a).value.os
    ensures !ok || w.browser == [] ==> someBrowser == browser && someOs == os
    ensures ok && w.browser != [] ==> fresh(someBrowser.cells) && (w.os != [] ==> fresh(someOs.cells))
    ensures browser.Items() == old(browser.Items()) && os.Items() == old(os.Items()) &&
            families.Items() == old(families.Items())
    ensures systems.Valid()
  {
    ok, someBrowser, someOs := true, browser, os;
    if browser.len == 0 {
      return;
    }
    ResolveUnfolds(w, a);
    hide Resolve;
    hide Choose;
    hide Pool;
    hide Oses;
    var pool := PoolOf(browser, os, families, systems);
    assert |pool.Items()| == pool.len;
    if pool.len == 0 {
      ok := false;
      return;
    }
    someBrowser, someOs := PickBoth(pool.cells[a.first(pool.len)], os, systems, a);
  }
}
