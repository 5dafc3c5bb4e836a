/** Vocabulary shared by the model: optional values, outcomes, and sequence helpers. */
module Common {

  datatype Option<+T> = None | Some(value: T)

  /** A source function that may throw: the value, or the reason it threw. */
  datatype Result<+T, +E> = Ok(value: T) | Err(error: E)

  lemma Regroup<T>(a: seq<T>, b: seq<T>, c: seq<T>)
    ensures a + b + c == a + (b + c)
  {
  }

  /** `Array.prototype.map` for a pure callback. */
  function Map<A, B>(f: A -> B, s: seq<A>): (r: seq<B>)
    ensures |r| == |s|
    ensures forall i :: 0 <= i < |s| ==> r[i] == f(s[i])
  {
    seq(|s|, i requires 0 <= i < |s| => f(s[i]))
  }

  /** `Array.prototype.filter` for a pure callback. */
  function Filter<A>(p: A -> bool, s: seq<A>): (r: seq<A>)
    ensures |r| <= |s|
    ensures forall x | x in r :: x in s && p(x)
    ensures forall x | x in s && p(x) :: x in r
  {
    if s == [] then []
    else if p(s[0]) then [s[0]] + Filter(p, s[1..])
    else Filter(p, s[1..])
  }

  lemma {:induction false} FilterAppend<A>(p: A -> bool, a: seq<A>, b: seq<A>)
    ensures Filter(p, a + b) == Filter(p, a) + Filter(p, b)
  {
    var s := a + b;
    if a == [] {
      assert s == b;
    } else {
      assert s[0] == a[0] && s[1..] == a[1..] + b;
      FilterAppend(p, a[1..], b);
      var rest := Filter(p, a[1..]);
      assert Filter(p, s[1..]) == rest + Filter(p, b);
      assert [a[0]] + (rest + Filter(p, b)) == [a[0]] + rest + Filter(p, b);
    }
  }

  /** Filtering keeps the multiplicity of what it keeps. */
  lemma {:induction false} FilterCount<A>(p: A -> bool, s: seq<A>, x: A)
    ensures multiset(Filter(p, s))[x] == if p(x) then multiset(s)[x] else 0
  {
    if s != [] {
      FilterCount(p, s[1..], x);
      assert multiset(s)[x] == (if s[0] == x then 1 else 0) + multiset(s[1..])[x] by { assert s == [s[0]] + s[1..]; }
    }
  }

  lemma {:induction false} FilterNone<A>(p: A -> bool, s: seq<A>)
    requires forall x <- s :: !p(x)
    ensures Filter(p, s) == []
  {
    if s != [] { FilterNone(p, s[1..]); }
  }

  lemma {:induction false} FilterAll<A>(p: A -> bool, s: seq<A>)
    requires forall x <- s :: p(x)
    ensures Filter(p, s) == s
  {
    if s != [] { FilterAll(p, s[1..]); }
  }

  ghost predicate Distinct<A>(s: seq<A>)
  {
    forall i, j :: 0 <= i < j < |s| ==> s[i] != s[j]
  }

  /** In a sequence without repeats every element occurs exactly once. */
  lemma {:induction false} DistinctCount<A>(s: seq<A>)
    requires Distinct(s)
    ensures forall x :: multiset(s)[x] == if x in s then 1 else 0
  {
    if s != [] {
      DistinctCount(s[1..]);
      assert s == [s[0]] + s[1..];
    }
  }

  lemma {:induction false} CountDistinct<A>(s: seq<A>)
    requires forall x :: x in s ==> multiset(s)[x] == 1
    ensures Distinct(s)
  {
    if s != [] {
      assert s == [s[0]] + s[1..];
      forall x | x in s[1..] ensures multiset(s[1..])[x] == 1 {
        assert x in s;
        assert multiset(s)[x] == multiset([s[0]])[x] + multiset(s[1..])[x];
      }
      CountDistinct(s[1..]);
      forall i, j | 0 <= i < j < |s| ensures s[i] != s[j] {
        if i == 0 {
          assert s[j] == s[1..][j - 1];
          assert multiset(s)[s[0]] == 1 + multiset(s[1..])[s[0]];
        } else {
          assert s[1..][i - 1] == s[i] && s[1..][j - 1] == s[j];
        }
      }
    }
  }

  lemma DistinctCons<A>(x: A, s: seq<A>)
    ensures Distinct([x] + s) <==> x !in s && Distinct(s)
  {
    var all := [x] + s;
    if Distinct(all) {
      assert forall i :: 0 <= i < |s| ==> s[i] == all[i + 1] != all[0];
      assert forall i, j :: 0 <= i < j < |s| ==> s[i] == all[i + 1] && s[j] == all[j + 1];
    }
    if x !in s && Distinct(s) {
      forall i, j | 0 <= i < j < |all| ensures all[i] != all[j] {
        assert all[j] == s[j - 1] && s[j - 1] in s;
      }
    }
  }

  /** The values in the order of their first occurrence, as a `Set` or the keys of a `Map` keep them. */
  function Unique<A(==)>(s: seq<A>): seq<A>
  {
    if s == [] then []
    else
      var front := Unique(s[..|s| - 1]);
      var last := s[|s| - 1];
      if last in front then front else front + [last]
  }

  lemma {:induction false} UniqueOf<A>(s: seq<A>)
    ensures forall x :: x in Unique(s) <==> x in s
    ensures Distinct(Unique(s))
  {
    if s != [] {
      UniqueOf(s[..|s| - 1]);
      assert s == s[..|s| - 1] + [s[|s| - 1]];
    }
  }

  lemma {:induction false} UniqueDistinct<A>(s: seq<A>)
    requires Distinct(s)
    ensures Unique(s) == s
  {
    if s != [] {
      var front := s[..|s| - 1];
      UniqueDistinct(front);
      UniqueOf(front);
      assert s == front + [s[|s| - 1]];
    }
  }

  lemma {:induction false} DistinctSet<T>(s: seq<T>)
    requires Distinct(s)
    ensures |set x | x in s| == |s|
  {
    if s != [] {
      DistinctSet(s[1..]);
      assert s == [s[0]] + s[1..];
      assert (set x | x in s) == {s[0]} + set x | x in s[1..];
      assert forall j :: 0 < j < |s| ==> s[j] == s[1..][j - 1];
    }
  }

  lemma {:induction false} FilterSame<A>(p: A -> bool, q: A -> bool, s: seq<A>)
    requires forall x <- s :: p(x) == q(x)
    ensures Filter(p, s) == Filter(q, s)
  {
    if s != [] { FilterSame(p, q, s[1..]); }
  }

  function Removed<A>(s: seq<A>, i: nat): seq<A>
    requires i < |s|
  {
    s[..i] + s[i + 1..]
  }

  lemma RemoveCount<A>(s: seq<A>, i: nat)
    requires i < |s|
    ensures multiset(s) == multiset{s[i]} + multiset(Removed(s, i))
    ensures multiset(Removed(s, i)) == multiset(s) - multiset{s[i]}
  {
    assert s == s[..i] + [s[i]] + s[i + 1..];
  }

  lemma MapRemoved<A, B>(f: A -> B, s: seq<A>, i: nat)
    requires i < |s|
    ensures Removed(Map(f, s), i) == Map(f, Removed(s, i)) && Map(f, s)[i] == f(s[i])
  {
  }

  /** A reordering reads off a reordering. */
  lemma {:induction false} MapMultiset<A, B>(f: A -> B, a: seq<A>, b: seq<A>)
    requires multiset(a) == multiset(b)
    ensures multiset(Map(f, a)) == multiset(Map(f, b))
    decreases |a|
  {
    assert |a| == |multiset(a)| == |multiset(b)| == |b|;
    if a != [] {
      assert a[0] in multiset(b);
      var i :| 0 <= i < |b| && b[i] == a[0];
      hide Map, Removed;
      RemoveCount(a, 0);
      RemoveCount(b, i);
      RemovedShorter(a);
      MapMultiset(f, Removed(a, 0), Removed(b, i));
      MapRemoved(f, a, 0);
      MapRemoved(f, b, i);
      RemoveCount(Map(f, a), 0);
      RemoveCount(Map(f, b), i);
    }
  }

  lemma RemovedShorter<A>(a: seq<A>)
    requires a != []
    ensures |Removed(a, 0)| < |a|
  {
  }
}
