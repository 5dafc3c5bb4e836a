/** Grouping values by a text key, in the order in which the keys first occur. */
module Grouping {
  import opened Common

  function Group<T>(key: T -> string, id: string, values: seq<T>): seq<T>
  {
    Filter(v => key(v) == id, values)
  }

  /** A group is what any other description of its members selects. */
  lemma GroupIs<T>(key: T -> string, id: string, values: seq<T>, member: T -> bool)
    requires forall v <- values :: member(v) == (key(v) == id)
    ensures Group(key, id, values) == Filter(member, values)
  {
    FilterSame(v => key(v) == id, member, values);
  }

  /** One more value joins its own group only. */
  lemma GroupGrows<T>(values: seq<T>, i: nat, key: T -> string, id: string)
    requires i < |values|
    ensures Group(key, id, values[..i + 1]) ==
            Group(key, id, values[..i]) + (if key(values[i]) == id then [values[i]] else [])
  {
    assert values[..i + 1] == values[..i] + [values[i]];
    FilterAppend(v => key(v) == id, values[..i], [values[i]]);
  }

  lemma KeysGrow<T>(values: seq<T>, i: nat, key: T -> string)
    requires i < |values|
    ensures var before := Unique(Map(key, values[..i])); var k := key(values[i]);
            && Unique(Map(key, values[..i + 1])) == (if k in before then before else before + [k])
            && (k !in before ==> Group(key, k, values[..i]) == [])
  {
    var ids := Map(key, values[..i + 1]);
    assert ids[..i] == Map(key, values[..i]);
    UniqueOf(ids[..i]);
    if key(values[i]) !in Unique(ids[..i]) {
      forall v | v in values[..i] ensures key(v) != key(values[i]) {
        var j :| 0 <= j < i && values[..i][j] == v;
        assert ids[..i][j] == key(v);
      }
      FilterNone(v => key(v) == key(values[i]), values[..i]);
    }
  }

  /** `groupBy`. */
  method GroupBy<T>(values: seq<T>, key: T -> string) returns (order: seq<string>, groups: map<string, seq<T>>)
    ensures order == Unique(Map(key, values))
    ensures forall id :: id in groups <==> id in order
    ensures forall id <- order :: groups[id] == Group(key, id, values)
  {
    hide Unique, Group, Map;
    order, groups := [], map[];
    NoKeys(values, key);
    for i := 0 to |values|
      invariant order == Unique(Map(key, values[..i]))
      invariant forall id :: id in groups <==> id in order
      invariant forall id <- order :: groups[id] == Group(key, id, values[..i])
    {
      var k := key(values[i]);
      KeysGrow(values, i, key);
      forall id ensures Group(key, id, values[..i + 1]) ==
                        Group(key, id, values[..i]) + (if k == id then [values[i]] else [])
      {
        GroupGrows(values, i, key, id);
      }
      if k !in order {
        order := order + [k];
        groups := groups[k := [values[i]]];
      } else {
        groups := groups[k := groups[k] + [values[i]]];
      }
    }
    assert values[..|values|] == values;
  }

  lemma NoKeys<T>(values: seq<T>, key: T -> string)
    ensures Unique(Map(key, values[..0])) == []
  {
  }

  lemma {:induction false} GroupSize<T>(key: T -> string, id: string, values: seq<T>)
    ensures |Group(key, id, values)| == multiset(Map(key, values))[id]
  {
    if values != [] {
      GroupSize(key, id, values[1..]);
      assert Map(key, values) == [key(values[0])] + Map(key, values[1..]);
    }
  }

  lemma GroupCount<T>(key: T -> string, id: string, values: seq<T>, x: T)
    ensures multiset(Group(key, id, values))[x] == if key(x) == id then multiset(values)[x] else 0
  {
    FilterCount(v => key(v) == id, values, x);
  }
}
