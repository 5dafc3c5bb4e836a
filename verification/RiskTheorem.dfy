/** What the risk assessment guarantees, and what a gate verdict built on it means. */
module RiskTheorem {
  import opened Common
  import opened Grouping
  import opened RiskPolicy

  /** The list for an impact. */
  function ListFor(a: Assessment, impact: Impact): set<Label>
  {
    match impact
    case G0_FAIL => a.repositoryBlockers
    case G0_REVIEW_REQUIRED => a.reviewRequiredRisks
    case LATER_GATE => a.laterGateRisks
    case SEPARATE_INCIDENT => a.separateIncidents
  }

  predicate HasOpen(rows: seq<Row>) { exists row <- rows :: !Closed(row.state) }

  /** The entry names an impact. */
  predicate Classifies(entry: Option<PolicyEntry>)
  {
    entry.Some? && entry.value.Entry? && entry.value.impact.Some?
  }

  /** Where a register id is listed, if it is. */
  function Place(id: string, rows: seq<Row>, entry: Option<PolicyEntry>): Option<(Impact, Label)>
    requires rows != []
  {
    if !HasOpen(rows) then None
    else if |rows| != 1 then Some((G0_FAIL, DuplicateOpen(id)))
    else if Classifies(entry) then Some((entry.value.impact.value, Listed(id, rows[0].state)))
    else Some((G0_FAIL, Unclassified(id, rows[0].state)))
  }

  function KeyErrors(id: string, rows: seq<Row>, entry: Option<PolicyEntry>): seq<Error>
  {
    if |rows| != 1 then [DuplicateRows(id)] else if Classifies(entry) then [] else [MissingPolicy(id)]
  }

  /** One classification step, stated by what it lists, counts and rejects. */
  lemma ClassifyStep(a: Assessment, id: string, rows: seq<Row>, entry: Option<PolicyEntry>)
    requires rows != []
    ensures var a' := Classify(a, id, rows, entry);
            && a'.errors == a.errors + KeyErrors(id, rows, entry)
            && (forall impact, l :: l in ListFor(a', impact) <==>
                  l in ListFor(a, impact) || Place(id, rows, entry) == Some((impact, l)))
            && a'.impactCounts == (if KeyErrors(id, rows, entry) == [] then Bump(a.impactCounts, entry.value.impact.value)
                                   else a.impactCounts)
            && a'.openImpactCounts == (if KeyErrors(id, rows, entry) == [] && HasOpen(rows)
                                       then Bump(a.openImpactCounts, entry.value.impact.value) else a.openImpactCounts)
  {
    assert |rows| == 1 ==> (HasOpen(rows) <==> !Closed(rows[0].state));
  }

  function PlaceOf(id: string, rows: seq<Row>, objects: seq<PolicyEntry>): Option<(Impact, Label)>
  {
    var group := Group(RowId, id, rows);
    if group == [] then None else Place(id, group, Valid(id, objects))
  }

  function AllKeyErrors(ids: seq<string>, rows: seq<Row>, objects: seq<PolicyEntry>): seq<Error>
  {
    if ids == [] then []
    else KeyErrors(ids[0], Group(RowId, ids[0], rows), Valid(ids[0], objects)) + AllKeyErrors(ids[1..], rows, objects)
  }

  lemma {:induction false} ClassifyAllLists(
      a: Assessment, ids: seq<string>, rows: seq<Row>, objects: seq<PolicyEntry>, impact: Impact, l: Label)
    requires forall id <- ids :: Group(RowId, id, rows) != []
    ensures l in ListFor(ClassifyAll(a, ids, rows, objects), impact) <==>
            l in ListFor(a, impact) || exists id <- ids :: PlaceOf(id, rows, objects) == Some((impact, l))
    decreases |ids|
  {
    if ids != [] {
      var group, entry := Group(RowId, ids[0], rows), Valid(ids[0], objects);
      ClassifyStep(a, ids[0], group, entry);
      hide Classify, ListFor, Place, Group, Valid;
      ClassifyAllLists(Classify(a, ids[0], group, entry), ids[1..], rows, objects, impact, l);
      assert forall id :: id in ids <==> id == ids[0] || id in ids[1..];
      assert PlaceOf(ids[0], rows, objects) == Place(ids[0], group, entry);
    }
  }

  lemma {:induction false} ClassifyAllErrors(a: Assessment, ids: seq<string>, rows: seq<Row>, objects: seq<PolicyEntry>)
    requires forall id <- ids :: Group(RowId, id, rows) != []
    ensures ClassifyAll(a, ids, rows, objects).errors == a.errors + AllKeyErrors(ids, rows, objects)
    decreases |ids|
  {
    if ids != [] {
      var group, entry := Group(RowId, ids[0], rows), Valid(ids[0], objects);
      ClassifyStep(a, ids[0], group, entry);
      hide Classify, Group, Valid, KeyErrors;
      ClassifyAllErrors(Classify(a, ids[0], group, entry), ids[1..], rows, objects);
      Regroup(a.errors, KeyErrors(ids[0], group, entry), AllKeyErrors(ids[1..], rows, objects));
    }
  }

  // ---- fail closed ----

  /** The place of a label is that of its own id. */
  lemma ListedAt(lines: seq<Line>, policy: Policy, impact: Impact, l: Label)
    ensures l in ListFor(Assess(lines, policy), impact) <==>
            l.riskId in RegisterIds(lines)
            && PlaceOf(l.riskId, RowsOf(lines), Objects(Entries(policy))) == Some((impact, l))
  {
    var rows, objects := RowsOf(lines), Objects(Entries(policy));
    ClassifyAllLists(Start(lines, policy), RegisterIds(lines), rows, objects, impact, l);
    hide ClassifyAll, PlaceOf, Objects, RowsOf, RegisterIds, Start;
    forall id | PlaceOf(id, rows, objects) == Some((impact, l)) ensures l.riskId == id {
      PlaceId(id, rows, objects);
    }
  }

  lemma PlaceId(id: string, rows: seq<Row>, objects: seq<PolicyEntry>)
    ensures PlaceOf(id, rows, objects).Some? ==> PlaceOf(id, rows, objects).value.1.riskId == id
  {
  }

  /** Every open register row is in one of the four lists, whatever is wrong with the register or the policy. */
  lemma OpenRiskListed(lines: seq<Line>, policy: Policy, row: Row)
    requires row in RowsOf(lines) && !Closed(row.state)
    ensures exists impact, l :: l in ListFor(Assess(lines, policy), impact) && l.riskId == row.riskId
  {
    var rows, objects := RowsOf(lines), Objects(Entries(policy));
    HasGroup(rows, row.riskId);
    assert row in Group(RowId, row.riskId, rows);
    var place := PlaceOf(row.riskId, rows, objects).value;
    ListedAt(lines, policy, place.0, place.1);
  }

  /** No risk is listed twice, in one list or in two. */
  lemma ListedOnce(lines: seq<Line>, policy: Policy, i: Impact, j: Impact, l: Label, m: Label)
    requires l in ListFor(Assess(lines, policy), i) && m in ListFor(Assess(lines, policy), j) && l.riskId == m.riskId
    ensures i == j && l == m
  {
    ListedAt(lines, policy, i, l);
    ListedAt(lines, policy, j, m);
  }

  // ---- when an assessment is valid ----

  predicate SoundEntry(e: PolicyEntry)
  {
    && e.Entry? && ValidId(e.riskId) && e.impact.Some? && e.rationale
    && (e.impact != Some(G0_FAIL) ==> e.condition)
  }

  predicate SoundLine(line: Line) { !line.WrongColumns? && (line.RiskRow? ==> !line.emptyField) }

  ghost predicate HeaderSound(policy: Policy)
  {
    policy.schemaOk && policy.gateOk && policy.sourceOk && policy.risks.Some?
  }

  /** Register rows and policy entries are in bijection, and each of them is sound. */
  ghost predicate Matched(rows: seq<Row>, entries: seq<PolicyEntry>)
  {
    && rows != [] && (forall e <- entries :: SoundEntry(e))
    && Distinct(Map(RowId, rows)) && Distinct(Map(IdOf, entries))
    && (forall id :: id in Map(RowId, rows) <==> id in Map(IdOf, entries))
  }

  lemma BothEmpty(a: seq<Error>, b: seq<Error>)
    ensures a + b == [] <==> a == [] && b == []
  {
    assert |a + b| == |a| + |b|;
  }

  lemma {:induction false} NoLineErrors(lines: seq<Line>, number: nat)
    ensures LineErrors(lines, number) == [] <==> forall line <- lines :: SoundLine(line)
  {
    if lines != [] {
      NoLineErrors(lines[1..], number + 1);
      BothEmpty(LineError(lines[0], number), LineErrors(lines[1..], number + 1));
      assert forall line :: line in lines <==> line == lines[0] || line in lines[1..];
      assert LineErrors(lines, number) == LineError(lines[0], number) + LineErrors(lines[1..], number + 1);
      assert LineError(lines[0], number) == [] <==> SoundLine(lines[0]);
    }
  }

  lemma {:induction false} NoObjectErrors(entries: seq<PolicyEntry>, index: nat)
    ensures ObjectErrors(entries, index) == [] <==> forall e <- entries :: e.Entry?
  {
    if entries != [] {
      NoObjectErrors(entries[1..], index + 1);
      var first: seq<Error> := if entries[0].NotObject? then [EntryNotObject(index)] else [];
      assert ObjectErrors(entries, index) == first + ObjectErrors(entries[1..], index + 1);
      assert first == [] <==> entries[0].Entry?;
      BothEmpty(first, ObjectErrors(entries[1..], index + 1));
      assert forall e :: e in entries <==> e == entries[0] || e in entries[1..];
    }
  }

  lemma {:induction false} NoPolicyErrors(ids: seq<string>, objects: seq<PolicyEntry>)
    ensures PolicyErrors(ids, objects) == [] <==> forall id <- ids :: GroupErrors(id, Group(IdOf, id, objects)) == []
  {
    if ids != [] {
      NoPolicyErrors(ids[1..], objects);
      assert |PolicyErrors(ids, objects)| == |GroupErrors(ids[0], Group(IdOf, ids[0], objects))|
                                             + |PolicyErrors(ids[1..], objects)|;
      hide Group, GroupErrors;
      assert ids == [ids[0]] + ids[1..];
    }
  }

  lemma {:induction false} NoKeyErrors(ids: seq<string>, rows: seq<Row>, objects: seq<PolicyEntry>)
    ensures AllKeyErrors(ids, rows, objects) == [] <==>
            forall id <- ids :: |Group(RowId, id, rows)| == 1 && Classifies(Valid(id, objects))
  {
    if ids != [] {
      NoKeyErrors(ids[1..], rows, objects);
      hide Group, Valid, Classifies;
      assert ids == [ids[0]] + ids[1..];
    }
  }

  lemma {:induction false} NoOrphanErrors(ids: seq<string>, rows: seq<Row>)
    ensures OrphanErrors(ids, rows) == [] <==> forall id <- ids :: Group(RowId, id, rows) != []
  {
    if ids != [] {
      NoOrphanErrors(ids[1..], rows);
      hide Group;
      assert ids == [ids[0]] + ids[1..];
    }
  }

  /** Every group is a singleton exactly when no key repeats. */
  lemma SingletonGroups<T>(key: T -> string, values: seq<T>)
    ensures Distinct(Map(key, values)) <==> forall id <- Map(key, values) :: |Group(key, id, values)| == 1
  {
    var keys := Map(key, values);
    forall id ensures |Group(key, id, values)| == multiset(keys)[id] { GroupSize(key, id, values); }
    hide Group, Map;
    if Distinct(keys) { DistinctCount(keys); }
    if forall id <- keys :: |Group(key, id, values)| == 1 { CountDistinct(keys); }
  }

  /** The entries of one risk are sound exactly when there is one and it is. */
  lemma GroupSound(id: string, objects: seq<PolicyEntry>)
    requires forall e <- objects :: e.Entry?
    ensures GroupErrors(id, Group(IdOf, id, objects)) == [] <==>
            |Group(IdOf, id, objects)| == 1 && SoundEntry(Group(IdOf, id, objects)[0])
  {
    var group := Group(IdOf, id, objects);
    if |group| == 1 { assert group[0] in group && group[0] in objects && IdOf(group[0]) == id; }
  }

  lemma ObjectsAll(entries: seq<PolicyEntry>)
    requires forall e <- entries :: e.Entry?
    ensures Objects(entries) == entries
  {
    FilterAll((e: PolicyEntry) => e.Entry?, entries);
  }

  /** The policy's own checks pass exactly when its entries are sound and no id repeats. */
  lemma PolicySound(entries: seq<PolicyEntry>)
    requires forall e <- entries :: e.Entry?
    ensures PolicyErrors(Unique(Map(IdOf, entries)), entries) == [] <==>
            (forall e <- entries :: SoundEntry(e)) && Distinct(Map(IdOf, entries))
  {
    var ids := Map(IdOf, entries);
    NoPolicyErrors(Unique(ids), entries);
    UniqueOf(ids);
    SingletonGroups(IdOf, entries);
    forall id ensures GroupErrors(id, Group(IdOf, id, entries)) == [] <==>
                      |Group(IdOf, id, entries)| == 1 && SoundEntry(Group(IdOf, id, entries)[0])
    {
      GroupSound(id, entries);
    }
    hide GroupErrors, SoundEntry, PolicyErrors, Unique, Group, Map, IdOf;
    if (forall e <- entries :: SoundEntry(e)) && Distinct(ids) {
      forall id | id in ids ensures GroupErrors(id, Group(IdOf, id, entries)) == [] {
        OnlyMember(id, entries);
      }
    }
    if forall id <- ids :: GroupErrors(id, Group(IdOf, id, entries)) == [] {
      forall e | e in entries ensures SoundEntry(e) {
        OwnGroup(e, entries);
      }
    }
  }

  lemma OnlyMember(id: string, entries: seq<PolicyEntry>)
    requires |Group(IdOf, id, entries)| == 1
    ensures Group(IdOf, id, entries)[0] in entries
  {
    assert Group(IdOf, id, entries)[0] in Group(IdOf, id, entries);
  }

  lemma OwnGroup(e: PolicyEntry, entries: seq<PolicyEntry>)
    requires e in entries
    ensures IdOf(e) in Map(IdOf, entries)
    ensures |Group(IdOf, IdOf(e), entries)| == 1 ==> Group(IdOf, IdOf(e), entries)[0] == e
  {
    var i :| 0 <= i < |entries| && entries[i] == e;
    assert Map(IdOf, entries)[i] == IdOf(e);
    assert e in Group(IdOf, IdOf(e), entries);
  }

  /** Each kind of error is absent exactly when its subject is sound. */
  lemma ErrorsByKind(lines: seq<Line>, policy: Policy)
    ensures var rows, objects := RowsOf(lines), Objects(Entries(policy));
            IsValid(Assess(lines, policy)) <==>
              && RegisterErrors(lines) == [] && HeaderErrors(policy) == [] && ObjectErrors(Entries(policy), 0) == []
              && PolicyErrors(PolicyIds(policy), objects) == []
              && AllKeyErrors(RegisterIds(lines), rows, objects) == []
              && OrphanErrors(PolicyIds(policy), rows) == []
  {
    ClassifyAllErrors(Start(lines, policy), RegisterIds(lines), RowsOf(lines), Objects(Entries(policy)));
    hide ClassifyAll, RegisterErrors, HeaderErrors, ObjectErrors, PolicyErrors, AllKeyErrors, OrphanErrors, RowsOf, Objects;
    var early := RegisterErrors(lines) + HeaderErrors(policy) + ObjectErrors(Entries(policy), 0);
    var policyErrors := PolicyErrors(PolicyIds(policy), Objects(Entries(policy)));
    var keyErrors := AllKeyErrors(RegisterIds(lines), RowsOf(lines), Objects(Entries(policy)));
    BothEmpty(RegisterErrors(lines), HeaderErrors(policy));
    BothEmpty(RegisterErrors(lines) + HeaderErrors(policy), ObjectErrors(Entries(policy), 0));
    BothEmpty(early, policyErrors);
    BothEmpty(early + policyErrors, keyErrors);
    BothEmpty(early + policyErrors + keyErrors, OrphanErrors(PolicyIds(policy), RowsOf(lines)));
  }

  lemma RegisterIdsAre(lines: seq<Line>)
    ensures forall id :: id in RegisterIds(lines) <==> id in Map(RowId, RowsOf(lines))
    ensures Distinct(RegisterIds(lines))
  {
    UniqueOf(Map(RowId, RowsOf(lines)));
  }

  /** With a sound policy, the register's own checks pass exactly when its ids are those of the policy, once each. */
  lemma RegisterSound(rows: seq<Row>, entries: seq<PolicyEntry>)
    requires (forall e <- entries :: SoundEntry(e)) && Distinct(Map(IdOf, entries))
    ensures AllKeyErrors(Unique(Map(RowId, rows)), rows, entries) == []
            && OrphanErrors(Unique(Map(IdOf, entries)), rows) == [] <==>
            Distinct(Map(RowId, rows)) && forall id :: id in Map(RowId, rows) <==> id in Map(IdOf, entries)
  {
    var rowIds, ids := Map(RowId, rows), Map(IdOf, entries);
    UniqueOf(rowIds);
    UniqueOf(ids);
    NoKeyErrors(Unique(rowIds), rows, entries);
    NoOrphanErrors(Unique(ids), rows);
    SingletonGroups(RowId, rows);
    forall id ensures Classifies(Valid(id, entries)) <==> id in ids { ValidSound(id, entries); }
    forall id ensures id in rowIds <==> Group(RowId, id, rows) != [] { HasGroup(rows, id); }
    hide Group, Map, Unique, Valid, Classifies, SoundEntry, AllKeyErrors, OrphanErrors;
  }

  lemma ValidSound(id: string, entries: seq<PolicyEntry>)
    requires (forall e <- entries :: SoundEntry(e)) && Distinct(Map(IdOf, entries))
    ensures Classifies(Valid(id, entries)) <==> id in Map(IdOf, entries)
    ensures id in Map(IdOf, entries) ==>
              Valid(id, entries).Some? && Valid(id, entries).value in entries && IdOf(Valid(id, entries).value) == id
  {
    ValidIsPolicy(id, entries);
    UniqueOf(Map(IdOf, entries));
    if id in Map(IdOf, entries) {
      SingletonGroups(IdOf, entries);
      OnlyMember(id, entries);
      GroupSound(id, entries);
      assert Group(IdOf, id, entries)[0] in Group(IdOf, id, entries);
    }
  }

  /** An assessment is valid exactly when register and policy are sound and in bijection. */
  lemma ValidExactly(lines: seq<Line>, policy: Policy)
    ensures IsValid(Assess(lines, policy)) <==>
            HeaderSound(policy) && (forall line <- lines :: SoundLine(line)) && Matched(RowsOf(lines), Entries(policy))
  {
    hide *;
    var rows, entries := RowsOf(lines), Entries(policy);
    ErrorsByKind(lines, policy);
    NoRegisterErrors(lines);
    NoHeaderErrors(policy);
    NoObjectErrors(entries, 0);
    if forall e <- entries :: e.Entry? {
      ObjectsAll(entries);
      IdsOf(lines, policy);
      PolicySound(entries);
      if (forall e <- entries :: SoundEntry(e)) && Distinct(Map(IdOf, entries)) { RegisterSound(rows, entries); }
    } else {
      SoundMeansEntry(entries);
    }
    MatchedMeans(rows, entries);
  }

  lemma NoRegisterErrors(lines: seq<Line>)
    ensures RegisterErrors(lines) == [] <==> (forall line <- lines :: SoundLine(line)) && RowsOf(lines) != []
  {
    NoLineErrors(lines, 1);
    BothEmpty(LineErrors(lines, 1), if RowsOf(lines) == [] then [NoRows] else []);
  }

  lemma NoHeaderErrors(policy: Policy)
    ensures HeaderErrors(policy) == [] <==> HeaderSound(policy)
  {
  }

  lemma IdsOf(lines: seq<Line>, policy: Policy)
    ensures PolicyIds(policy) == Unique(Map(IdOf, Objects(Entries(policy))))
    ensures RegisterIds(lines) == Unique(Map(RowId, RowsOf(lines)))
  {
  }

  lemma MatchedMeans(rows: seq<Row>, entries: seq<PolicyEntry>)
    ensures Matched(rows, entries) <==>
            && rows != [] && (forall e <- entries :: SoundEntry(e))
            && Distinct(Map(RowId, rows)) && Distinct(Map(IdOf, entries))
            && (forall id :: id in Map(RowId, rows) <==> id in Map(IdOf, entries))
  {
  }

  lemma SoundMeansEntry(entries: seq<PolicyEntry>)
    ensures (forall e <- entries :: SoundEntry(e)) ==> forall e <- entries :: e.Entry?
  {
  }

  // ---- counts ----

  function Total(counts: map<Impact, nat>): nat
    requires counts.Keys == NO_COUNTS.Keys
  {
    counts[G0_FAIL] + counts[G0_REVIEW_REQUIRED] + counts[LATER_GATE] + counts[SEPARATE_INCIDENT]
  }

  lemma {:induction false} ClassifyAllCounts(a: Assessment, ids: seq<string>, rows: seq<Row>, objects: seq<PolicyEntry>)
    requires forall id <- ids :: Group(RowId, id, rows) != []
    requires AllKeyErrors(ids, rows, objects) == [] && a.impactCounts.Keys == NO_COUNTS.Keys
    ensures var counts := ClassifyAll(a, ids, rows, objects).impactCounts;
            counts.Keys == NO_COUNTS.Keys && Total(counts) == Total(a.impactCounts) + |ids|
    decreases |ids|
  {
    if ids != [] {
      var group, entry := Group(RowId, ids[0], rows), Valid(ids[0], objects);
      ClassifyStep(a, ids[0], group, entry);
      BothEmpty(KeyErrors(ids[0], group, entry), AllKeyErrors(ids[1..], rows, objects));
      hide Group, Valid, Classify, KeyErrors, Bump, Total;
      var next := Classify(a, ids[0], group, entry);
      BumpTotal(a.impactCounts, entry.value.impact.value);
      ClassifyAllCounts(next, ids[1..], rows, objects);
    }
  }

  lemma BumpTotal(counts: map<Impact, nat>, impact: Impact)
    requires counts.Keys == NO_COUNTS.Keys
    ensures Bump(counts, impact).Keys == NO_COUNTS.Keys && Total(Bump(counts, impact)) == Total(counts) + 1
  {
    assert Bump(counts, impact).Keys == counts.Keys + {impact};
    match impact
    case G0_FAIL =>
    case G0_REVIEW_REQUIRED =>
    case LATER_GATE =>
    case SEPARATE_INCIDENT =>
  }

  lemma SameSize(a: seq<string>, b: seq<string>)
    requires Distinct(a) && Distinct(b) && forall id :: id in a <==> id in b
    ensures |a| == |b|
  {
    DistinctCount(a);
    DistinctCount(b);
    assert multiset(a) == multiset(b);
    assert |multiset(a)| == |a| && |multiset(b)| == |b|;
  }

  /** A valid assessment counts every row and every entry exactly once. */
  lemma ValidCounts(lines: seq<Line>, policy: Policy)
    requires IsValid(Assess(lines, policy))
    ensures Assess(lines, policy).impactCounts.Keys == NO_COUNTS.Keys
    ensures Total(Assess(lines, policy).impactCounts) == |RowsOf(lines)| == |Entries(policy)|
  {
    hide *;
    ValidExactly(lines, policy);
    ErrorsByKind(lines, policy);
    var rows, entries := RowsOf(lines), Entries(policy);
    MatchedMeans(rows, entries);
    AssessCounts(lines, policy);
    ClassifyAllCounts(Start(lines, policy), RegisterIds(lines), rows, Objects(entries));
    UniqueDistinct(Map(RowId, rows));
    IdsOf(lines, policy);
    SameSize(Map(RowId, rows), Map(IdOf, entries));
  }

  /** The risk has one row and one sound entry, with this impact; `open` asks for an open row as well. */
  predicate CountedAs(id: string, rows: seq<Row>, objects: seq<PolicyEntry>, impact: Impact, open: bool)
  {
    var group, entry := Group(RowId, id, rows), Valid(id, objects);
    |group| == 1 && Classifies(entry) && entry.value.impact.value == impact && (open ==> !Closed(group[0].state))
  }

  function CountIds(ids: seq<string>, rows: seq<Row>, objects: seq<PolicyEntry>, impact: Impact, open: bool): nat
  {
    |Filter((id: string) => CountedAs(id, rows, objects, impact, open), ids)|
  }

  lemma ClassifyCounts(a: Assessment, id: string, rows: seq<Row>, objects: seq<PolicyEntry>, impact: Impact)
    requires Group(RowId, id, rows) != [] && impact in a.impactCounts && impact in a.openImpactCounts
    ensures var a' := Classify(a, id, Group(RowId, id, rows), Valid(id, objects));
            && impact in a'.impactCounts && impact in a'.openImpactCounts
            && a'.impactCounts[impact] == a.impactCounts[impact] + (if CountedAs(id, rows, objects, impact, false) then 1 else 0)
            && a'.openImpactCounts[impact] ==
               a.openImpactCounts[impact] + (if CountedAs(id, rows, objects, impact, true) then 1 else 0)
  {
    var group := Group(RowId, id, rows);
    ClassifyStep(a, id, group, Valid(id, objects));
    assert |group| == 1 ==> (HasOpen(group) <==> !Closed(group[0].state));
    hide Group, Valid, Classify, Place, ListFor;
  }

  /** What classification counts, for any register and policy. */
  lemma {:induction false} CountsExactly(
      a: Assessment, ids: seq<string>, rows: seq<Row>, objects: seq<PolicyEntry>, impact: Impact)
    requires forall id <- ids :: Group(RowId, id, rows) != []
    requires impact in a.impactCounts && impact in a.openImpactCounts
    ensures var end := ClassifyAll(a, ids, rows, objects);
            && impact in end.impactCounts && impact in end.openImpactCounts
            && end.impactCounts[impact] == a.impactCounts[impact] + CountIds(ids, rows, objects, impact, false)
            && end.openImpactCounts[impact] == a.openImpactCounts[impact] + CountIds(ids, rows, objects, impact, true)
    decreases |ids|
  {
    if ids != [] {
      ClassifyCounts(a, ids[0], rows, objects, impact);
      hide CountedAs, Group, Valid, Classify;
      CountsExactly(Classify(a, ids[0], Group(RowId, ids[0], rows), Valid(ids[0], objects)), ids[1..], rows, objects, impact);
    }
  }

  /** An entry of the policy gives the row this impact. */
  predicate Rated(entries: seq<PolicyEntry>, row: Row, impact: Impact)
  {
    exists e <- entries :: e.Entry? && e.riskId == row.riskId && e.impact == Some(impact)
  }

  lemma RatedIsCounted(lines: seq<Line>, policy: Policy, row: Row, impact: Impact, open: bool)
    requires IsValid(Assess(lines, policy)) && row in RowsOf(lines)
    ensures CountedAs(row.riskId, RowsOf(lines), Objects(Entries(policy)), impact, open) <==>
            Rated(Entries(policy), row, impact) && (open ==> !Closed(row.state))
  {
    ValidExactly(lines, policy);
    var rows, entries := RowsOf(lines), Entries(policy);
    SingleRow(rows, row);
    ObjectsAll(entries);
    hide Assess, IsValid, SoundLine, RowsOf, Group, Valid, Map;
    var e := UniqueEntry(entries, row.riskId);
  }

  lemma {:induction false} FilterMapSize<A, B>(f: A -> B, p: B -> bool, q: A -> bool, s: seq<A>)
    requires forall x <- s :: p(f(x)) == q(x)
    ensures |Filter(p, Map(f, s))| == |Filter(q, s)|
  {
    if s != [] {
      assert Map(f, s) == [f(s[0])] + Map(f, s[1..]);
      FilterMapSize(f, p, q, s[1..]);
    }
  }

  lemma {:induction false} UniqueSame<A>(s: seq<A>)
    requires Distinct(s)
    ensures Unique(s) == s
  {
    if s != [] {
      var front, last := s[..|s| - 1], s[|s| - 1];
      assert s == front + [last];
      UniqueSame(front);
      assert forall i :: 0 <= i < |front| ==> front[i] == s[i] != last;
    }
  }

  /** A valid assessment counts, for each impact, the register rows that the policy gives it, and the open ones among them. */
  lemma CountsOfImpact(lines: seq<Line>, policy: Policy, impact: Impact)
    requires IsValid(Assess(lines, policy))
    ensures var a, rows := Assess(lines, policy), RowsOf(lines);
            && impact in a.impactCounts && impact in a.openImpactCounts
            && a.impactCounts[impact] == |Filter((r: Row) => Rated(Entries(policy), r, impact), rows)|
            && a.openImpactCounts[impact] ==
               |Filter((r: Row) => Rated(Entries(policy), r, impact) && !Closed(r.state), rows)|
  {
    var rows, objects := RowsOf(lines), Objects(Entries(policy));
    ValidExactly(lines, policy);
    MatchedMeans(rows, Entries(policy));
    UniqueSame(Map(RowId, rows));
    IdsOf(lines, policy);
    AssessCounts(lines, policy);
    StartCounts(lines, policy, impact);
    CountsExactly(Start(lines, policy), RegisterIds(lines), rows, objects, impact);
    forall row, open | row in rows
      ensures CountedAs(row.riskId, rows, objects, impact, open) <==>
              Rated(Entries(policy), row, impact) && (open ==> !Closed(row.state))
    {
      RatedIsCounted(lines, policy, row, impact, open);
    }
    hide Assess, IsValid, Start, RegisterIds, ClassifyAll, CountedAs, Rated, Objects, Matched, Unique, Filter, Map;
    FilterMapSize(RowId, (id: string) => CountedAs(id, rows, objects, impact, false),
                  (r: Row) => Rated(Entries(policy), r, impact), rows);
    FilterMapSize(RowId, (id: string) => CountedAs(id, rows, objects, impact, true),
                  (r: Row) => Rated(Entries(policy), r, impact) && !Closed(r.state), rows);
  }

  lemma StartCounts(lines: seq<Line>, policy: Policy, impact: Impact)
    ensures var s := Start(lines, policy);
            && impact in s.impactCounts && impact in s.openImpactCounts
            && s.impactCounts[impact] == 0 && s.openImpactCounts[impact] == 0
  {
    match impact
    case G0_FAIL =>
    case G0_REVIEW_REQUIRED =>
    case LATER_GATE =>
    case SEPARATE_INCIDENT =>
  }

  lemma AssessCounts(lines: seq<Line>, policy: Policy)
    ensures var end := ClassifyAll(Start(lines, policy), RegisterIds(lines), RowsOf(lines), Objects(Entries(policy)));
            && Assess(lines, policy).impactCounts == end.impactCounts
            && Assess(lines, policy).openImpactCounts == end.openImpactCounts
    ensures Start(lines, policy).impactCounts.Keys == NO_COUNTS.Keys && Total(Start(lines, policy).impactCounts) == 0
  {
    hide ClassifyAll, RegisterIds, RowsOf, Objects;
  }

  // ---- the gate ----

  datatype Clause = Clause(id: string, pass: bool)

  /** What the other eight clauses rest on. */
  datatype Facts = Facts(
    sourcePassed: bool, dispositionPassed: bool, registryPassed: bool, installationPassed: bool,
    deterministicPassed: bool, pilotsPassed: seq<bool>, knownDefective: nat,
    blockedWithoutPrerequisite: nat, soakGuardPassed: bool, contractPassed: bool)

  /** `buildGate0Clauses`. */
  function Clauses(f: Facts, a: Assessment): seq<Clause>
  {
    [Clause("G0-C1", f.sourcePassed), Clause("G0-C2", f.dispositionPassed), Clause("G0-C3", f.registryPassed),
     Clause("G0-C4", f.installationPassed),
     Clause("G0-C5", f.deterministicPassed && forall passed <- f.pilotsPassed :: passed),
     Clause("G0-C6", f.knownDefective == 0),
     Clause("G0-C7", f.blockedWithoutPrerequisite == 0 && f.soakGuardPassed),
     Clause("G0-C8", f.contractPassed), Clause("G0-C9", IsValid(a))]
  }

  datatype Review = PENDING | APPROVED

  datatype Verdict = FAIL | CONDITIONAL_PASS | PASS

  datatype Outcome = Outcome(verdict: Verdict, exitCode: nat, failedClauses: seq<Clause>, blockers: set<Label>, reviewRisks: set<Label>)

  /** `deriveGateOutcome`; it throws without clauses. */
  function GateOutcome(clauses: seq<Clause>, blockers: set<Label>, reviewRisks: set<Label>, review: Review): Result<Outcome, string>
  {
    if clauses == [] then Err("Gate 0 clauses are missing")
    else
      var failed := Filter((c: Clause) => !c.pass, clauses);
      if failed != [] || blockers != {} then Ok(Outcome(FAIL, 1, failed, blockers, reviewRisks))
      else Ok(Outcome(if review == PENDING then CONDITIONAL_PASS else PASS, 0, [], {}, reviewRisks))
  }

  /** The verdict on a register and a policy, as the generator composes it. */
  function Gate(f: Facts, lines: seq<Line>, policy: Policy, review: Review): Result<Outcome, string>
  {
    var a := Assess(lines, policy);
    GateOutcome(Clauses(f, a), a.repositoryBlockers, a.reviewRequiredRisks, review)
  }

  predicate AllHold(f: Facts)
  {
    && f.sourcePassed && f.dispositionPassed && f.registryPassed && f.installationPassed && f.deterministicPassed
    && (forall passed <- f.pilotsPassed :: passed) && f.knownDefective == 0
    && f.blockedWithoutPrerequisite == 0 && f.soakGuardPassed && f.contractPassed
  }

  /** The one entry for an open risk puts it elsewhere than in the gate's failures, for a reason and under a condition. */
  ghost predicate DeliberatelyKept(lines: seq<Line>, policy: Policy, row: Row)
  {
    exists e <- Entries(policy) ::
      && SoundEntry(e) && IdOf(e) == row.riskId && e.impact.value != G0_FAIL && e.condition
      && (forall other <- Entries(policy) :: IdOf(other) == row.riskId ==> other == e)
      && Listed(row.riskId, row.state) in ListFor(Assess(lines, policy), e.impact.value)
  }

  lemma ClausesPass(f: Facts, a: Assessment)
    ensures Filter((c: Clause) => !c.pass, Clauses(f, a)) == [] <==> AllHold(f) && IsValid(a)
  {
    var failing := (c: Clause) => !c.pass;
    var clauses := Clauses(f, a);
    if AllHold(f) && IsValid(a) {
      FilterNone(failing, clauses);
    } else {
      var c := FailingClause(f, a);
      assert c in Filter(failing, clauses);
    }
  }

  lemma FailingClause(f: Facts, a: Assessment) returns (c: Clause)
    requires !(AllHold(f) && IsValid(a))
    ensures c in Clauses(f, a) && !c.pass
  {
    var clauses := Clauses(f, a);
    c := if !clauses[0].pass then clauses[0] else if !clauses[1].pass then clauses[1]
         else if !clauses[2].pass then clauses[2] else if !clauses[3].pass then clauses[3]
         else if !clauses[4].pass then clauses[4] else if !clauses[5].pass then clauses[5]
         else if !clauses[6].pass then clauses[6] else if !clauses[7].pass then clauses[7] else clauses[8];
  }

  /** In a valid assessment each row is placed by its one entry. */
  lemma ValidPlace(lines: seq<Line>, policy: Policy, row: Row) returns (e: PolicyEntry)
    requires IsValid(Assess(lines, policy)) && row in RowsOf(lines)
    ensures e in Entries(policy) && SoundEntry(e) && IdOf(e) == row.riskId
    ensures forall other <- Entries(policy) :: IdOf(other) == row.riskId ==> other == e
    ensures row.riskId in RegisterIds(lines)
    ensures PlaceOf(row.riskId, RowsOf(lines), Objects(Entries(policy))) ==
            if Closed(row.state) then None else Some((e.impact.value, Listed(row.riskId, row.state)))
  {
    ValidExactly(lines, policy);
    hide Assess, IsValid, SoundLine, RowsOf;
    var rows, entries := RowsOf(lines), Entries(policy);
    var id := row.riskId;
    ObjectsAll(entries);
    SingleRow(rows, row);
    RegisterIdsAre(lines);
    hide RegisterIds;
    e := UniqueEntry(entries, id);
    PlaceSingle(row, rows, entries, e);
  }

  lemma SingleRow(rows: seq<Row>, row: Row)
    requires row in rows && Distinct(Map(RowId, rows))
    ensures row.riskId in Map(RowId, rows) && Group(RowId, row.riskId, rows) == [row]
  {
    var i :| 0 <= i < |rows| && rows[i] == row;
    assert Map(RowId, rows)[i] == row.riskId;
    SingletonGroups(RowId, rows);
    assert row in Group(RowId, row.riskId, rows);
  }

  lemma UniqueEntry(entries: seq<PolicyEntry>, id: string) returns (e: PolicyEntry)
    requires (forall e <- entries :: SoundEntry(e)) && Distinct(Map(IdOf, entries)) && id in Map(IdOf, entries)
    ensures Valid(id, entries) == Some(e) && e in entries && SoundEntry(e) && IdOf(e) == id
    ensures forall other <- entries :: IdOf(other) == id ==> other == e
  {
    ValidSound(id, entries);
    e := Valid(id, entries).value;
    SingletonGroups(IdOf, entries);
    hide Valid, SoundEntry;
    forall other | other in entries && IdOf(other) == id ensures other == e {
      OwnGroup(other, entries);
      OwnGroup(e, entries);
    }
  }

  lemma PlaceSingle(row: Row, rows: seq<Row>, entries: seq<PolicyEntry>, e: PolicyEntry)
    requires Group(RowId, row.riskId, rows) == [row] && Valid(row.riskId, entries) == Some(e) && SoundEntry(e)
    ensures PlaceOf(row.riskId, rows, entries) ==
            if Closed(row.state) then None else Some((e.impact.value, Listed(row.riskId, row.state)))
  {
    hide Group, Valid;
  }

  lemma OpenMeansBlocker(lines: seq<Line>, policy: Policy)
    requires IsValid(Assess(lines, policy))
    ensures Assess(lines, policy).repositoryBlockers == {} <==>
            forall row <- RowsOf(lines) :: !Closed(row.state) ==> DeliberatelyKept(lines, policy, row)
  {
    var blockers := Assess(lines, policy).repositoryBlockers;
    forall row | row in RowsOf(lines) && !Closed(row.state)
      ensures DeliberatelyKept(lines, policy, row) <==> Listed(row.riskId, row.state) !in blockers
    {
      RowKept(lines, policy, row);
    }
    if l :| l in blockers {
      ListedAt(lines, policy, G0_FAIL, l);
      HasGroup(RowsOf(lines), l.riskId);
      var group := Group(RowId, l.riskId, RowsOf(lines));
      assert group[0] in group && group[0] in RowsOf(lines);
      var e := ValidPlace(lines, policy, group[0]);
      assert l == Listed(l.riskId, group[0].state);
    }
  }

  lemma RowKept(lines: seq<Line>, policy: Policy, row: Row)
    requires IsValid(Assess(lines, policy)) && row in RowsOf(lines) && !Closed(row.state)
    ensures DeliberatelyKept(lines, policy, row) <==>
            Listed(row.riskId, row.state) !in Assess(lines, policy).repositoryBlockers
  {
    var e := ValidPlace(lines, policy, row);
    hide Assess, PlaceOf, RowsOf, Objects, RegisterIds;
    ListedAt(lines, policy, e.impact.value, Listed(row.riskId, row.state));
    ListedAt(lines, policy, G0_FAIL, Listed(row.riskId, row.state));
  }

  /** The gate does not fail exactly when every clause holds and every open risk is deliberately kept out of its failures. */
  lemma GateExactly(f: Facts, lines: seq<Line>, policy: Policy, review: Review)
    ensures Gate(f, lines, policy, review).Ok?
    ensures Gate(f, lines, policy, review).value.verdict != FAIL <==>
            && AllHold(f) && IsValid(Assess(lines, policy))
            && forall row <- RowsOf(lines) :: !Closed(row.state) ==> DeliberatelyKept(lines, policy, row)
  {
    var a := Assess(lines, policy);
    ClausesPass(f, a);
    if IsValid(a) { OpenMeansBlocker(lines, policy); }
    assert Clauses(f, a) != [];
    hide Assess, Clauses, DeliberatelyKept, RowsOf, Filter, AllHold, IsValid;
  }
  /** The condition under which the gate does not fail. */
  ghost predicate Clear(f: Facts, lines: seq<Line>, policy: Policy)
  {
    && AllHold(f) && IsValid(Assess(lines, policy))
    && forall row <- RowsOf(lines) :: !Closed(row.state) ==> DeliberatelyKept(lines, policy, row)
  }

  /** Without clauses there is no outcome. */
  lemma NoClauses(clauses: seq<Clause>, blockers: set<Label>, reviewRisks: set<Label>, review: Review)
    ensures GateOutcome(clauses, blockers, reviewRisks, review).Err? <==> clauses == []
    ensures clauses != [] ==>
              var r := GateOutcome(clauses, blockers, reviewRisks, review).value;
              r.verdict == FAIL <==> blockers != {} || exists c <- clauses :: !c.pass
  {
    var failed := Filter((c: Clause) => !c.pass, clauses);
    if failed != [] { assert failed[0] in failed; }
  }

  /** The rows of a register are those of its risk lines, in order. */
  lemma {:induction false} RowsExactly(lines: seq<Line>)
    ensures RowsOf(lines) ==
            Map((l: Line) => if l.RiskRow? then Row(l.riskId, l.state) else Row("", ""), Filter((l: Line) => l.RiskRow?, lines))
  {
    if lines != [] {
      RowsExactly(lines[1..]);
      var risky := Filter((l: Line) => l.RiskRow?, lines[1..]);
      if lines[0].RiskRow? { assert ([lines[0]] + risky)[1..] == risky; }
    }
  }

  /** A risk id is `G0-R` and three digits. */
  lemma IdExactly(id: string)
    ensures ValidId(id) <==> exists a, b, c :: '0' <= a <= '9' && '0' <= b <= '9' && '0' <= c <= '9' && id == "G0-R" + [a, b, c]
  {
    if ValidId(id) {
      var a, b, c := id[4], id[5], id[6];
      assert a in id[4..] && b in id[4..] && c in id[4..] by {
        assert id[4..][0] == a && id[4..][1] == b && id[4..][2] == c;
      }
      assert id == id[..4] + [a, b, c];
    }
    if a, b, c :| '0' <= a <= '9' && '0' <= b <= '9' && '0' <= c <= '9' && id == "G0-R" + [a, b, c] {
      assert id[..4] == "G0-R" && id[4..] == [a, b, c];
    }
  }

  /** The whole outcome: while the review is pending a clear gate passes conditionally, and only a failure has exit code one. */
  lemma VerdictExactly(f: Facts, lines: seq<Line>, policy: Policy, review: Review)
    ensures var r := Gate(f, lines, policy, review);
            && r.Ok?
            && (r.value.verdict == PASS <==> Clear(f, lines, policy) && review == APPROVED)
            && (r.value.verdict == CONDITIONAL_PASS <==> Clear(f, lines, policy) && review == PENDING)
            && (r.value.verdict == FAIL <==> !Clear(f, lines, policy))
            && r.value.exitCode == (if r.value.verdict == FAIL then 1 else 0)
            && r.value.reviewRisks == Assess(lines, policy).reviewRequiredRisks
            && r.value.blockers == Assess(lines, policy).repositoryBlockers
  {
    GateExactly(f, lines, policy, review);
    assert Clauses(f, Assess(lines, policy)) != [];
    hide Assess, Clauses, DeliberatelyKept, RowsOf, Filter, AllHold, IsValid;
  }

  /** The failed clauses of a gate are those whose own facts do not hold, and no others. */
  lemma FailedClauses(f: Facts, lines: seq<Line>, policy: Policy, review: Review)
    ensures var r := Gate(f, lines, policy, review).value.failedClauses;
            && (Clause("G0-C1", false) in r <==> !f.sourcePassed)
            && (Clause("G0-C2", false) in r <==> !f.dispositionPassed)
            && (Clause("G0-C3", false) in r <==> !f.registryPassed)
            && (Clause("G0-C4", false) in r <==> !f.installationPassed)
            && (Clause("G0-C5", false) in r <==> !f.deterministicPassed || exists passed <- f.pilotsPassed :: !passed)
            && (Clause("G0-C6", false) in r <==> f.knownDefective != 0)
            && (Clause("G0-C7", false) in r <==> f.blockedWithoutPrerequisite != 0 || !f.soakGuardPassed)
            && (Clause("G0-C8", false) in r <==> !f.contractPassed)
            && (Clause("G0-C9", false) in r <==> !IsValid(Assess(lines, policy)))
            && forall c <- r :: !c.pass && c in Clauses(f, Assess(lines, policy))
  {
    var a := Assess(lines, policy);
    ClauseList(f, a);
    hide Assess, IsValid, Filter, GateOutcome, Clauses;
    FailedAre(Clauses(f, a), a.repositoryBlockers, a.reviewRequiredRisks, review);
    OneClause(f, a, 0);
    OneClause(f, a, 1);
    OneClause(f, a, 2);
    OneClause(f, a, 3);
    OneClause(f, a, 4);
    OneClause(f, a, 5);
    OneClause(f, a, 6);
    OneClause(f, a, 7);
    OneClause(f, a, 8);
  }

  lemma ClauseList(f: Facts, a: Assessment)
    ensures var clauses := Clauses(f, a);
            && |clauses| == 9
            && clauses[0] == Clause("G0-C1", f.sourcePassed) && clauses[1] == Clause("G0-C2", f.dispositionPassed)
            && clauses[2] == Clause("G0-C3", f.registryPassed) && clauses[3] == Clause("G0-C4", f.installationPassed)
            && clauses[4] == Clause("G0-C5", f.deterministicPassed && forall passed <- f.pilotsPassed :: passed)
            && clauses[5] == Clause("G0-C6", f.knownDefective == 0)
            && clauses[6] == Clause("G0-C7", f.blockedWithoutPrerequisite == 0 && f.soakGuardPassed)
            && clauses[7] == Clause("G0-C8", f.contractPassed) && clauses[8] == Clause("G0-C9", IsValid(a))
  {
    hide IsValid;
  }

  lemma OneClause(f: Facts, a: Assessment, k: nat)
    requires k < 9
    ensures |Clauses(f, a)| == 9
    ensures Clause(Clauses(f, a)[k].id, false) in Clauses(f, a) <==> !Clauses(f, a)[k].pass
  {
    var clauses := Clauses(f, a);
    forall j: nat | j < 9 ensures |clauses[j].id| == 5 && clauses[j].id[4] == "123456789"[j] { ClauseNumber(f, a, j); }
    assert Clause(clauses[k].id, clauses[k].pass) == clauses[k];
    hide Clauses;
    if Clause(clauses[k].id, false) in clauses {
      var j :| 0 <= j < |clauses| && clauses[j] == Clause(clauses[k].id, false);
      assert |clauses| == 9 by { NineClauses(f, a); }
      DigitsDiffer(j, k);
    }
  }

  lemma DigitsDiffer(j: nat, k: nat)
    requires j < 9 && k < 9 && "123456789"[j] == "123456789"[k]
    ensures j == k
  {
    DigitIs(j);
    DigitIs(k);
  }

  lemma DigitIs(j: nat)
    requires j < 9
    ensures "123456789"[j] as int == '1' as int + j
  {
  }

  lemma ClauseNumber(f: Facts, a: Assessment, j: nat)
    requires j < 9
    ensures |Clauses(f, a)[j].id| == 5 && Clauses(f, a)[j].id[4] == "123456789"[j]
  {
    hide IsValid;
  }

  lemma FailedAre(clauses: seq<Clause>, blockers: set<Label>, reviewRisks: set<Label>, review: Review)
    requires clauses != []
    ensures forall c :: c in GateOutcome(clauses, blockers, reviewRisks, review).value.failedClauses <==> c in clauses && !c.pass
  {
  }

  lemma NineClauses(f: Facts, a: Assessment)
    ensures |Clauses(f, a)| == 9
  {
  }
}
