/** `Array.prototype.sort` with a comparator: a stable sort by any total preorder. */
module Sorting {
  import opened Common

  ghost predicate Preorder<T(!new)>(leq: (T, T) -> bool)
  {
    && (forall x, y :: leq(x, y) || leq(y, x))
    && (forall x, y, z :: leq(x, y) && leq(y, z) ==> leq(x, z))
  }

  ghost predicate Sorted<T>(leq: (T, T) -> bool, s: seq<T>)
  {
    forall i, j :: 0 <= i < j < |s| ==> leq(s[i], s[j])
  }

  function Insert<T>(leq: (T, T) -> bool, x: T, s: seq<T>): seq<T>
  {
    if s == [] || leq(x, s[0]) then [x] + s else [s[0]] + Insert(leq, x, s[1..])
  }

  /** Equal elements keep their order: an element goes before those not smaller than it. */
  function Sort<T>(leq: (T, T) -> bool, s: seq<T>): seq<T>
  {
    if s == [] then [] else Insert(leq, s[0], Sort(leq, s[1..]))
  }

  lemma {:induction false} InsertMultiset<T>(leq: (T, T) -> bool, x: T, s: seq<T>)
    ensures multiset(Insert(leq, x, s)) == multiset{x} + multiset(s)
    ensures |Insert(leq, x, s)| == |s| + 1
  {
    if !(s == [] || leq(x, s[0])) {
      InsertMultiset(leq, x, s[1..]);
      assert s == [s[0]] + s[1..];
    }
  }

  lemma {:induction false} SortMultiset<T>(leq: (T, T) -> bool, s: seq<T>)
    ensures multiset(Sort(leq, s)) == multiset(s)
    ensures |Sort(leq, s)| == |s|
    ensures forall x :: x in Sort(leq, s) <==> x in s
  {
    if s != [] {
      SortMultiset(leq, s[1..]);
      InsertMultiset(leq, s[0], Sort(leq, s[1..]));
      assert s == [s[0]] + s[1..];
    }
    assert forall x :: x in Sort(leq, s) <==> x in multiset(Sort(leq, s));
  }

  lemma {:induction false} InsertSorted<T(!new)>(leq: (T, T) -> bool, x: T, s: seq<T>)
    requires Preorder(leq) && Sorted(leq, s)
    ensures Sorted(leq, Insert(leq, x, s))
  {
    if s == [] || leq(x, s[0]) {
      assert forall j :: 0 <= j < |s| ==> leq(x, s[j]);
    } else {
      var rest := s[1..];
      assert forall i, j :: 0 <= i < j < |rest| ==> rest[i] == s[i + 1] && rest[j] == s[j + 1];
      InsertSorted(leq, x, rest);
      InsertMultiset(leq, x, rest);
      var inserted := Insert(leq, x, rest);
      forall j | 0 <= j < |inserted| ensures leq(s[0], inserted[j]) {
        assert inserted[j] in multiset(inserted);
        assert inserted[j] == x || inserted[j] in rest;
        if inserted[j] in rest {
          var k :| 0 <= k < |rest| && rest[k] == inserted[j];
          assert leq(s[0], s[k + 1]);
        }
      }
    }
  }

  lemma {:induction false} SortSorted<T(!new)>(leq: (T, T) -> bool, s: seq<T>)
    requires Preorder(leq)
    ensures Sorted(leq, Sort(leq, s))
  {
    if s != [] {
      SortSorted(leq, s[1..]);
      InsertSorted(leq, s[0], Sort(leq, s[1..]));
    }
  }

  /** Inserting a kept element into a sorted list and filtering commute. */
  lemma {:induction false} InsertFilter<T(!new)>(leq: (T, T) -> bool, keep: T -> bool, x: T, s: seq<T>)
    requires Preorder(leq) && Sorted(leq, s)
    ensures Filter(keep, Insert(leq, x, s)) ==
            if keep(x) then Insert(leq, x, Filter(keep, s)) else Filter(keep, s)
  {
    if s == [] || leq(x, s[0]) {
      var kept := Filter(keep, s);
      assert ([x] + s)[1..] == s;
      if keep(x) && kept != [] {
        assert kept[0] in s;
        var k :| 0 <= k < |s| && s[k] == kept[0];
        assert leq(x, kept[0]);
      }
    } else {
      var rest := s[1..];
      assert forall i, j :: 0 <= i < j < |rest| ==> rest[i] == s[i + 1] && rest[j] == s[j + 1];
      InsertFilter(leq, keep, x, rest);
      var inserted := Insert(leq, x, rest);
      assert ([s[0]] + inserted)[1..] == inserted;
      if keep(s[0]) {
        assert ([s[0]] + Filter(keep, rest))[1..] == Filter(keep, rest);
      } else if keep(x) {
        assert Filter(keep, s) == Filter(keep, rest);
      }
    }
  }

  /** Filtering and sorting commute. */
  lemma {:induction false} SortFilter<T(!new)>(leq: (T, T) -> bool, keep: T -> bool, s: seq<T>)
    requires Preorder(leq)
    ensures Filter(keep, Sort(leq, s)) == Sort(leq, Filter(keep, s))
  {
    if s != [] {
      SortFilter(leq, keep, s[1..]);
      SortSorted(leq, s[1..]);
      InsertFilter(leq, keep, s[0], Sort(leq, s[1..]));
      if keep(s[0]) { assert ([s[0]] + Filter(keep, s[1..]))[1..] == Filter(keep, s[1..]); }
    }
  }

  /** An order in which no two different values are equal. */
  ghost predicate TotalOrder<T(!new)>(leq: (T, T) -> bool)
  {
    Preorder(leq) && forall x, y :: leq(x, y) && leq(y, x) ==> x == y
  }

  lemma HeadLeast<T(!new)>(leq: (T, T) -> bool, s: seq<T>, x: T)
    requires Preorder(leq) && Sorted(leq, s) && x in s
    ensures leq(s[0], x) && Sorted(leq, s[1..])
  {
    var i :| 0 <= i < |s| && s[i] == x;
    assert leq(x, x);
    assert forall p, q :: 0 <= p < q < |s[1..]| ==> s[1..][p] == s[p + 1] && s[1..][q] == s[q + 1];
  }

  lemma TailMultiset<T>(s: seq<T>)
    requires s != []
    ensures multiset(s[1..]) == multiset(s) - multiset{s[0]}
  {
    assert s == [s[0]] + s[1..];
  }

  lemma {:induction false} SortedUnique<T(!new)>(leq: (T, T) -> bool, a: seq<T>, b: seq<T>)
    requires TotalOrder(leq) && Sorted(leq, a) && Sorted(leq, b) && multiset(a) == multiset(b)
    ensures a == b
  {
    assert |a| == |multiset(a)| == |multiset(b)| == |b|;
    if a != [] {
      assert a[0] in multiset(b) && b[0] in multiset(a);
      HeadLeast(leq, a, b[0]);
      HeadLeast(leq, b, a[0]);
      assert a[0] == b[0];
      TailMultiset(a);
      TailMultiset(b);
      hide Sorted, Preorder;
      SortedUnique(leq, a[1..], b[1..]);
    }
  }

  /** With a total order a sorted list is determined by its elements: sorting is a canonical form. */
  lemma SortCanonical<T(!new)>(leq: (T, T) -> bool, a: seq<T>, b: seq<T>)
    requires TotalOrder(leq)
    ensures Sort(leq, a) == Sort(leq, b) <==> multiset(a) == multiset(b)
  {
    SortMultiset(leq, a);
    SortMultiset(leq, b);
    if multiset(a) == multiset(b) {
      SortSorted(leq, a);
      SortSorted(leq, b);
      SortedUnique(leq, Sort(leq, a), Sort(leq, b));
    }
  }

  lemma {:induction false} InsertMap<T, U>(leq: (T, T) -> bool, f: T -> U, x: T, s: seq<T>)
    ensures multiset(Map(f, Insert(leq, x, s))) == multiset{f(x)} + multiset(Map(f, s))
  {
    if s == [] || leq(x, s[0]) {
      assert Map(f, [x] + s) == [f(x)] + Map(f, s);
    } else {
      InsertMap(leq, f, x, s[1..]);
      var rest := Insert(leq, x, s[1..]);
      assert Map(f, [s[0]] + rest) == [f(s[0])] + Map(f, rest);
      assert Map(f, s) == [f(s[0])] + Map(f, s[1..]);
    }
  }

  /** Sorting permutes whatever is read off the elements. */
  lemma {:induction false} SortMap<T, U>(leq: (T, T) -> bool, f: T -> U, s: seq<T>)
    ensures multiset(Map(f, Sort(leq, s))) == multiset(Map(f, s))
  {
    if s != [] {
      SortMap(leq, f, s[1..]);
      InsertMap(leq, f, s[0], Sort(leq, s[1..]));
      assert Map(f, s) == [f(s[0])] + Map(f, s[1..]);
    }
  }

  /** The order of texts by their characters, which `sort()` uses when it is given no comparator. */
  predicate TextLeq(a: string, b: string)
  {
    a == "" || (b != "" && (a[0] < b[0] || (a[0] == b[0] && TextLeq(a[1..], b[1..]))))
  }

  lemma {:induction false} TextTransitive(a: string, b: string, c: string)
    requires TextLeq(a, b) && TextLeq(b, c)
    ensures TextLeq(a, c)
  {
    if a != "" && a[0] == b[0] == c[0] { TextTransitive(a[1..], b[1..], c[1..]); }
  }

  lemma {:induction false} TextTotal(a: string, b: string)
    ensures TextLeq(a, b) || TextLeq(b, a)
    ensures TextLeq(a, b) && TextLeq(b, a) ==> a == b
  {
    if a != "" && b != "" {
      TextTotal(a[1..], b[1..]);
      if a[0] == b[0] { assert a == [a[0]] + a[1..] && b == [b[0]] + b[1..]; }
    }
  }

  /** It is a total order, as the evidence contracts need. */
  lemma TextOrder()
    ensures TotalOrder(TextLeq)
  {
    forall a, b, c
      ensures TextLeq(a, b) || TextLeq(b, a)
      ensures TextLeq(a, b) && TextLeq(b, a) ==> a == b
      ensures TextLeq(a, b) && TextLeq(b, c) ==> TextLeq(a, c)
    {
      TextTotal(a, b);
      if TextLeq(a, b) && TextLeq(b, c) { TextTransitive(a, b, c); }
    }
  }
}
