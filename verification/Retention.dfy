/** Run retention: which completed runs of the orchestrator are deleted after a run. */
module Retention {
  import opened Common
  import opened Sorting

  /** `metadata.json` of a run; `endedAt` is absent while the run is not complete. */
  datatype Metadata = Metadata(orchestrator: string, endedAt: Option<string>)

  /** A directory entry; `dir` is its resolved path. */
  datatype Entry = Entry(dir: string, isDirectory: bool, metadata: Option<Metadata>)

  const ORCHESTRATOR_ID: string := "intentsmith-gate0-orchestrator"

  predicate Owned(e: Entry)
  {
    && e.isDirectory && e.metadata.Some? && e.metadata.value.orchestrator == ORCHESTRATOR_ID
    && e.metadata.value.endedAt.Some? && e.metadata.value.endedAt.value != ""
  }

  function EndedAt(e: Entry): string
  {
    if e.metadata.Some? && e.metadata.value.endedAt.Some? then e.metadata.value.endedAt.value else ""
  }

  function NewestFirst(newer: (string, string) -> bool): (Entry, Entry) -> bool
  {
    (a: Entry, b: Entry) => newer(EndedAt(a), EndedAt(b))
  }

  /** `localeCompare` is some total preorder of texts: `newer(a, b)` when `a` sorts at or after `b`. */
  function Newest(newer: (string, string) -> bool, entries: seq<Entry>): seq<Entry>
  {
    Sort(NewestFirst(newer), Filter(Owned, entries))
  }

  /** The paths to keep, after the loop that stops when there are enough; `retain` may be any number. */
  function Keep(keep: set<string>, owned: seq<Entry>, retain: real): set<string>
    decreases |owned|
  {
    if owned == [] || |keep| as real >= retain then keep else Keep(keep + {owned[0].dir}, owned[1..], retain)
  }

  function Doomed(newer: (string, string) -> bool, entries: seq<Entry>, retain: real, current: string): seq<Entry>
  {
    var owned := Newest(newer, entries);
    var keep := Keep({current}, owned, retain);
    Filter((e: Entry) => e.dir !in keep, owned)
  }

  // ---- the program ----

  class RunStore {
    var entries: seq<Entry>

    constructor (initial: seq<Entry>)
      ensures entries == initial
    {
      entries := initial;
    }

    /** `rm` of one run; `stuck` says which directories cannot be removed. */
    method Remove(e: Entry, stuck: string -> bool) returns (ok: bool)
      modifies this
      ensures ok == !stuck(e.dir)
      ensures entries == if ok then Filter((x: Entry) => x != e, old(entries)) else old(entries)
    {
      ok := !stuck(e.dir);
      if ok { entries := Filter((x: Entry) => x != e, entries); }
    }

    /** The loop that removes one run after the other until one cannot be removed. */
    method RemoveAll(doomed: seq<Entry>, stuck: string -> bool) returns (ok: bool)
      modifies this
      ensures ok ==> entries == Without(old(entries), doomed)
      ensures ok <==> forall e <- doomed :: !stuck(e.dir)
      ensures exists n :: 0 <= n <= |doomed| && entries == Without(old(entries), doomed[..n])
    {
      hide Without;
      ghost var before := entries;
      assert doomed[..0] == [];
      WithoutNone(before);
      for k := 0 to |doomed|
        invariant entries == Without(before, doomed[..k])
        invariant forall e <- doomed[..k] :: !stuck(e.dir)
      {
        assert doomed[..k + 1] == doomed[..k] + [doomed[k]];
        WithoutOne(before, doomed[..k], doomed[k]);
        var removed := Remove(doomed[k], stuck);
        if !removed {
          assert doomed[k] in doomed;
          return false;
        }
      }
      assert doomed[..|doomed|] == doomed;
      ok := true;
    }

    /** The loop that stops when enough paths are kept. */
    method KeptPaths(owned: seq<Entry>, retain: real, current: string) returns (keep: set<string>)
      ensures keep == Keep({current}, owned, retain)
    {
      keep := {current};
      var i := 0;
      assert owned[0..] == owned;
      while i < |owned| && (|keep| as real) < retain
        invariant 0 <= i <= |owned|
        invariant Keep(keep, owned[i..], retain) == Keep({current}, owned, retain)
      {
        assert owned[i..][0] == owned[i] && owned[i..][1..] == owned[i + 1..];
        keep := keep + {owned[i].dir};
        i := i + 1;
      }
    }

    /** `retainCompletedRuns`; a directory that cannot be removed ends it. */
    method RetainCompleted(newer: (string, string) -> bool, retain: real, current: string, stuck: string -> bool)
      returns (ok: bool)
      modifies this
      ensures ok ==> entries == Without(old(entries), Doomed(newer, old(entries), retain, current))
      ensures ok <==> forall e <- Doomed(newer, old(entries), retain, current) :: !stuck(e.dir)
      ensures exists n :: 0 <= n <= |Doomed(newer, old(entries), retain, current)|
                          && entries == Without(old(entries), Doomed(newer, old(entries), retain, current)[..n])
    {
      ghost var before := entries;
      var owned := Newest(newer, entries);
      var keep := KeptPaths(owned, retain, current);
      var doomed := Filter((e: Entry) => e.dir !in keep, owned);
      assert doomed == Doomed(newer, before, retain, current);
      hide *;
      ok := RemoveAll(doomed, stuck);
    }
  }

  function Without(entries: seq<Entry>, gone: seq<Entry>): seq<Entry>
  {
    Filter((e: Entry) => e !in gone, entries)
  }

  lemma {:induction false} WithoutOne(entries: seq<Entry>, gone: seq<Entry>, e: Entry)
    ensures Filter((x: Entry) => x != e, Without(entries, gone)) == Without(entries, gone + [e])
  {
    if entries != [] {
      WithoutOne(entries[1..], gone, e);
      var rest := Without(entries[1..], gone);
      assert ([entries[0]] + rest)[1..] == rest;
    }
  }

  lemma WithoutNone(entries: seq<Entry>)
    ensures Without(entries, []) == entries
  {
    FilterAll((e: Entry) => e !in [], entries);
  }

  // ---- main results ----

  /** How many runs besides the current one may stay. */
  function Room(retain: real): (n: nat)
    requires retain >= 1.0
    ensures n as real + 1.0 >= retain && n as real < retain
  {
    -(-retain).Floor - 1
  }

  function Others(entries: seq<Entry>, current: string): seq<Entry>
  {
    Filter((e: Entry) => e.dir != current, entries)
  }

  function Dirs(entries: seq<Entry>): seq<string> { Map((e: Entry) => e.dir, entries) }

  function DirSet(entries: seq<Entry>): set<string> { set d | d in Dirs(entries) }

  function Min(a: nat, b: nat): nat { if a < b then a else b }

  lemma DirsCons(owned: seq<Entry>)
    requires owned != [] && Distinct(Dirs(owned))
    ensures Distinct(Dirs(owned[1..])) && owned[0].dir !in Dirs(owned[1..])
    ensures forall d :: d in Dirs(owned) <==> d == owned[0].dir || d in Dirs(owned[1..])
  {
    assert Dirs(owned) == [owned[0].dir] + Dirs(owned[1..]);
    assert forall i :: 0 <= i < |owned| - 1 ==> Dirs(owned[1..])[i] == Dirs(owned)[i + 1] != Dirs(owned)[0];
  }

  lemma {:induction false} OthersInside(owned: seq<Entry>, current: string)
    ensures forall d <- Dirs(Others(owned, current)) :: d in Dirs(owned) && d != current
  {
    if owned != [] {
      var rest := Others(owned[1..], current);
      OthersInside(owned[1..], current);
      assert Dirs(owned) == [owned[0].dir] + Dirs(owned[1..]);
      assert Dirs([owned[0]] + rest) == [owned[0].dir] + Dirs(rest);
    }
  }

  lemma RoomExact(retain: real, k: nat)
    requires retain >= 1.0
    ensures k as real >= retain <==> k >= Room(retain) + 1
  {
  }

  /** A whole `retain` leaves one place fewer than it names, and a fractional one is rounded up. */
  lemma RoomOfWhole(n: nat, retain: real)
    requires n >= 1 && (n - 1) as real < retain <= n as real && retain >= 1.0
    ensures Room(retain) == n - 1
  {
    RoomExact(retain, n);
    if n > 1 { RoomExact(retain, n - 1); }
  }

  /** The same loop with a whole number of places. */
  function KeepUpTo(keep: set<string>, owned: seq<Entry>, places: nat): set<string>
    decreases |owned|
  {
    if owned == [] || |keep| >= places then keep else KeepUpTo(keep + {owned[0].dir}, owned[1..], places)
  }

  lemma {:induction false} KeepIsUpTo(keep: set<string>, owned: seq<Entry>, retain: real)
    requires retain >= 1.0
    ensures Keep(keep, owned, retain) == KeepUpTo(keep, owned, Room(retain) + 1)
    decreases |owned|
  {
    RoomExact(retain, |keep|);
    if owned != [] { KeepIsUpTo(keep + {owned[0].dir}, owned[1..], retain); }
  }

  /** The loop keeps the first others until there is no more room. */
  lemma {:induction false} KeepTakes(keep: set<string>, owned: seq<Entry>, places: nat, current: string)
    requires current in keep && |keep| <= places
    requires Distinct(Dirs(owned)) && forall d <- Dirs(owned) :: d == current || d !in keep
    ensures var others := Others(owned, current);
            KeepUpTo(keep, owned, places) == keep + DirSet(others[..Min(places - |keep|, |others|)])
    decreases |owned|
  {
    var others := Others(owned, current);
    var m := Min(places - |keep|, |others|);
    if owned == [] || |keep| == places {
      assert others[..m] == [];
      NoDirs();
      assert keep + {} == keep;
    } else {
      var first, rest := owned[0], owned[1..];
      DirsCons(owned);
      OthersCons(owned, current);
      KeepTakes(keep + {first.dir}, rest, places, current);
      hide *;
      KeepStep(keep, first, Others(rest, current), places, current);
    }
  }

  /** One path more, and what is still to come, are the path and the rest taken together. */
  lemma KeepStep(keep: set<string>, first: Entry, later: seq<Entry>, places: nat, current: string)
    requires current in keep && |keep| < places && (first.dir == current || first.dir !in keep)
    ensures var more := keep + {first.dir};
            var others := if first.dir == current then later else [first] + later;
            && |more| <= places
            && more + DirSet(later[..Min(places - |more|, |later|)])
               == keep + DirSet(others[..Min(places - |keep|, |others|)])
  {
    hide DirSet, Dirs;
    if first.dir == current {
      assert keep + {first.dir} == keep;
    } else {
      var m := Min(places - |keep|, |later| + 1);
      DirSetCons(first, later, m);
      Union(keep, first.dir, DirSet(later[..m - 1]));
    }
  }

  lemma Union(keep: set<string>, d: string, rest: set<string>)
    ensures keep + {d} + rest == keep + ({d} + rest)
  {
  }

  lemma NoDirs()
    ensures DirSet([]) == {}
  {
  }

  lemma OthersCons(owned: seq<Entry>, current: string)
    requires owned != []
    ensures Others(owned, current) ==
            if owned[0].dir == current then Others(owned[1..], current) else [owned[0]] + Others(owned[1..], current)
    ensures owned[0].dir in Dirs(owned)
  {
    assert Dirs(owned)[0] == owned[0].dir;
  }

  lemma DirSetCons(first: Entry, later: seq<Entry>, m: nat)
    requires 0 < m <= |later| + 1
    ensures DirSet(([first] + later)[..m]) == {first.dir} + DirSet(later[..m - 1])
  {
    var taken := later[..m - 1];
    assert ([first] + later)[..m] == [first] + taken;
    assert Dirs([first] + taken) == [first.dir] + Dirs(taken);
  }

  lemma {:induction false} FilterDistinct(p: Entry -> bool, entries: seq<Entry>)
    requires Distinct(Dirs(entries))
    ensures Distinct(Dirs(Filter(p, entries)))
    ensures forall d <- Dirs(Filter(p, entries)) :: d in Dirs(entries)
  {
    if entries != [] {
      DirsCons(entries);
      FilterDistinct(p, entries[1..]);
      if p(entries[0]) {
        var rest := Filter(p, entries[1..]);
        assert Dirs([entries[0]] + rest) == [entries[0].dir] + Dirs(rest);
      }
    }
  }

  lemma NewestDistinct(newer: (string, string) -> bool, entries: seq<Entry>)
    requires Distinct(Dirs(entries))
    ensures Distinct(Dirs(Newest(newer, entries)))
    ensures forall e <- Newest(newer, entries) :: e in entries && Owned(e)
  {
    var order := NewestFirst(newer);
    var owned := Filter(Owned, entries);
    FilterDistinct(Owned, entries);
    SortMultiset(order, owned);
    SortMap(order, (e: Entry) => e.dir, owned);
    DistinctCount(Dirs(owned));
    var dirs := Dirs(Sort(order, owned));
    forall d | d in dirs ensures multiset(dirs)[d] == 1 {
      assert d in multiset(dirs) && d in multiset(Dirs(owned));
    }
    CountDistinct(dirs);
  }

  /** One other run more: one more is taken, and it is the first. */
  lemma TakenCons(first: Entry, later: seq<Entry>, m: nat)
    requires 0 < m <= |later| + 1
    ensures forall d :: d in Dirs(([first] + later)[..m]) <==> d == first.dir || d in Dirs(later[..m - 1])
    ensures ([first] + later)[m..] == later[m - 1..]
  {
    var taken := later[..m - 1];
    assert ([first] + later)[..m] == [first] + taken;
    assert Dirs([first] + taken) == [first.dir] + Dirs(taken);
  }

  /** Filtering out the kept directories leaves the others after them. */
  lemma {:induction false} FilterRest(owned: seq<Entry>, current: string, keep: set<string>, m: nat)
    requires Distinct(Dirs(owned)) && m <= |Others(owned, current)| && current in keep
    requires forall d <- Dirs(owned) :: d in keep <==> d == current || d in Dirs(Others(owned, current)[..m])
    ensures Filter((e: Entry) => e.dir !in keep, owned) == Others(owned, current)[m..]
  {
    if owned != [] {
      var first, rest := owned[0], owned[1..];
      var later := Others(rest, current);
      DirsCons(owned);
      OthersInside(rest, current);
      OthersCons(owned, current);
      if first.dir == current {
        hide Others, Dirs;
        FilterRest(rest, current, keep, m);
      } else if m == 0 {
        NoDirs();
        assert Others(owned, current)[..0] == later[..0] == [];
        hide Others, Dirs;
        FilterRest(rest, current, keep, 0);
        assert first.dir !in keep;
      } else {
        TakenCons(first, later, m);
        hide Others, Dirs;
        FilterRest(rest, current, keep, m - 1);
      }
    }
  }

  /** Exactly the newest others stay, as many as there is room for; the rest are deleted in order. */
  lemma DeletesTheRest(newer: (string, string) -> bool, entries: seq<Entry>, retain: real, current: string)
    requires retain >= 1.0 && Distinct(Dirs(entries))
    ensures var others := Others(Newest(newer, entries), current);
            Doomed(newer, entries, retain, current) == others[Min(Room(retain), |others|)..]
  {
    var owned := Newest(newer, entries);
    var others := Others(owned, current);
    var m := Min(Room(retain), |others|);
    NewestDistinct(newer, entries);
    KeepIsUpTo({current}, owned, retain);
    KeepTakes({current}, owned, Room(retain) + 1, current);
    var keep := Keep({current}, owned, retain);
    hide Newest, Keep, Others;
    FilterRest(owned, current, keep, m);
  }

  /** Neither the current run, nor one of another owner, nor an unfinished one is ever deleted. */
  lemma NeverDeletes(newer: (string, string) -> bool, entries: seq<Entry>, retain: real, current: string, e: Entry)
    requires retain >= 1.0 && Distinct(Dirs(entries)) && e in Doomed(newer, entries, retain, current)
    ensures e in entries && Owned(e) && e.dir != current
  {
    DeletesTheRest(newer, entries, retain, current);
    NewestDistinct(newer, entries);
    var others := Others(Newest(newer, entries), current);
    assert e in others;
  }

  lemma NewestFirstPreorder(newer: (string, string) -> bool)
    requires Preorder(newer)
    ensures Preorder(NewestFirst(newer))
  {
    var order := NewestFirst(newer);
    forall a, b, c
      ensures (order(a, b) || order(b, a)) && (order(a, b) && order(b, c) ==> order(a, c))
    {
      var x, y, z := EndedAt(a), EndedAt(b), EndedAt(c);
      assert newer(x, y) || newer(y, x);
      assert newer(x, y) && newer(y, z) ==> newer(x, z);
    }
  }

  /** Every kept run ended at or after every deleted one. */
  lemma KeepsTheNewest(newer: (string, string) -> bool, entries: seq<Entry>, retain: real, current: string, kept: Entry, gone: Entry)
    requires retain >= 1.0 && Distinct(Dirs(entries)) && Preorder(newer)
    requires kept in entries && Owned(kept) && kept.dir != current && kept !in Doomed(newer, entries, retain, current)
    requires gone in Doomed(newer, entries, retain, current)
    ensures newer(EndedAt(kept), EndedAt(gone))
  {
    var order := NewestFirst(newer);
    var owned := Newest(newer, entries);
    var others := Others(owned, current);
    DeletesTheRest(newer, entries, retain, current);
    SortMultiset(order, Filter(Owned, entries));
    NewestFirstPreorder(newer);
    SortSorted(order, Filter(Owned, entries));
    SubsequenceSorted(order, (e: Entry) => e.dir != current, owned);
    assert kept in others && gone in others;
    var m := Min(Room(retain), |others|);
    PlacesInOrder(order, others, m, kept, gone);
  }

  lemma PlacesInOrder(order: (Entry, Entry) -> bool, others: seq<Entry>, m: nat, kept: Entry, gone: Entry)
    requires m <= |others| && Sorted(order, others) && kept in others && kept !in others[m..] && gone in others[m..]
    ensures order(kept, gone)
  {
    var i :| 0 <= i < |others| && others[i] == kept;
    var j :| 0 <= j < |others[m..]| && others[m..][j] == gone;
    forall k | m <= k < |others| ensures others[k] in others[m..] { assert others[m..][k - m] == others[k]; }
    assert i < m <= m + j && others[m + j] == gone;
  }

  lemma {:induction false} SubsequenceSorted(order: (Entry, Entry) -> bool, keep: Entry -> bool, s: seq<Entry>)
    requires Sorted(order, s)
    ensures Sorted(order, Filter(keep, s))
  {
    if s != [] {
      var rest := s[1..];
      assert forall i, j :: 0 <= i < j < |rest| ==> rest[i] == s[i + 1] && rest[j] == s[j + 1];
      SubsequenceSorted(order, keep, rest);
      var kept := Filter(keep, rest);
      forall j | 0 <= j < |kept| ensures order(s[0], kept[j]) {
        assert kept[j] in rest;
        var k :| 0 <= k < |rest| && rest[k] == kept[j];
        assert s[k + 1] == kept[j];
      }
    }
  }
}
