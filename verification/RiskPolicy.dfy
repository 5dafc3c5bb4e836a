/**
 The Gate 0 risk policy: every register row is classified by a policy entry, and what cannot be
 classified blocks the gate. Lines and entries are given as the source's patterns split them.
 */
module RiskPolicy {
  import opened Common
  import opened Grouping

  datatype Impact = G0_FAIL | G0_REVIEW_REQUIRED | LATER_GATE | SEPARATE_INCIDENT

  /** A line of the register: no risk row, a row with the wrong columns, or a row. */
  datatype Line = Plain | WrongColumns | RiskRow(riskId: string, state: string, emptyField: bool)

  datatype Row = Row(riskId: string, state: string)

  /** `impact` is `None` when the text names none; the flags say that the text is a non-blank string. */
  datatype PolicyEntry = NotObject | Entry(riskId: string, impact: Option<Impact>, rationale: bool, condition: bool)

  datatype Policy = Policy(schemaOk: bool, gateOk: bool, sourceOk: bool, risks: Option<seq<PolicyEntry>>)

  datatype Error =
    | BadSchema | BadGate | BadSource | RisksNotArray | EntryNotObject(index: nat)
    | InvalidRiskId(id: string) | DuplicatePolicy(id: string) | UnknownImpact(id: string)
    | NoRationale(id: string) | NoCondition(id: string)
    | LineColumns(line: nat) | EmptyField(id: string) | NoRows
    | DuplicateRows(id: string) | MissingPolicy(id: string) | NoRegisterRow(id: string)

  /** An item of one of the four lists. */
  datatype Label = Listed(riskId: string, state: string) | DuplicateOpen(riskId: string) | Unclassified(riskId: string, state: string)

  datatype Assessment = Assessment(
    errors: seq<Error>, impactCounts: map<Impact, nat>, openImpactCounts: map<Impact, nat>,
    repositoryBlockers: set<Label>, reviewRequiredRisks: set<Label>, laterGateRisks: set<Label>, separateIncidents: set<Label>)

  const CLOSED_STATES: set<string> :=
    {"ACCEPTED", "CLOSED", "MITIGATED", "MITIGATED_WITH_RESIDUAL", "MITIGATED_WITH_RESIDUALS"}

  predicate Closed(state: string) { state in CLOSED_STATES }

  predicate ValidId(id: string)
  {
    |id| == 7 && id[..4] == "G0-R" && forall c <- id[4..] :: '0' <= c <= '9'
  }

  // ---- reading the register and the policy ----

  function LineRows(line: Line): seq<Row>
  {
    if line.RiskRow? then [Row(line.riskId, line.state)] else []
  }

  function RowsOf(lines: seq<Line>): seq<Row>
  {
    if lines == [] then [] else LineRows(lines[0]) + RowsOf(lines[1..])
  }

  function LineError(line: Line, number: nat): seq<Error>
  {
    match line
    case WrongColumns => [LineColumns(number)]
    case RiskRow(id, _, empty) => if empty then [EmptyField(id)] else []
    case Plain => []
  }

  function LineErrors(lines: seq<Line>, number: nat): seq<Error>
  {
    if lines == [] then [] else LineError(lines[0], number) + LineErrors(lines[1..], number + 1)
  }

  function RegisterErrors(lines: seq<Line>): seq<Error>
  {
    LineErrors(lines, 1) + (if RowsOf(lines) == [] then [NoRows] else [])
  }

  function HeaderErrors(policy: Policy): seq<Error>
  {
    (if policy.schemaOk then [] else [BadSchema]) + (if policy.gateOk then [] else [BadGate])
    + (if policy.sourceOk then [] else [BadSource]) + (if policy.risks.Some? then [] else [RisksNotArray])
  }

  function Entries(policy: Policy): seq<PolicyEntry> { if policy.risks.Some? then policy.risks.value else [] }

  function ObjectErrors(entries: seq<PolicyEntry>, index: nat): seq<Error>
  {
    if entries == [] then []
    else (if entries[0].NotObject? then [EntryNotObject(index)] else []) + ObjectErrors(entries[1..], index + 1)
  }

  function Objects(entries: seq<PolicyEntry>): seq<PolicyEntry> { Filter((e: PolicyEntry) => e.Entry?, entries) }

  function IdOf(e: PolicyEntry): string { if e.Entry? then e.riskId else "" }

  function RowId(row: Row): string { row.riskId }

  /** The errors of the entries for one risk. */
  function GroupErrors(id: string, group: seq<PolicyEntry>): seq<Error>
  {
    if !ValidId(id) then [InvalidRiskId(id)]
    else if |group| != 1 || group[0].NotObject? then [DuplicatePolicy(id)]
    else
      (if group[0].impact.None? then [UnknownImpact(id)] else [])
      + (if !group[0].rationale then [NoRationale(id)] else [])
      + (if group[0].impact != Some(G0_FAIL) && !group[0].condition then [NoCondition(id)] else [])
  }

  function PolicyErrors(ids: seq<string>, objects: seq<PolicyEntry>): seq<Error>
  {
    if ids == [] then [] else GroupErrors(ids[0], Group(IdOf, ids[0], objects)) + PolicyErrors(ids[1..], objects)
  }

  /** The entry that classifies a risk, if there is exactly one and it is sound. */
  function Valid(id: string, objects: seq<PolicyEntry>): Option<PolicyEntry>
  {
    var group := Group(IdOf, id, objects);
    if group != [] && GroupErrors(id, group) == [] then Some(group[0]) else None
  }

  // ---- classification ----

  const NO_COUNTS: map<Impact, nat> := map[G0_FAIL := 0, G0_REVIEW_REQUIRED := 0, LATER_GATE := 0, SEPARATE_INCIDENT := 0]

  function Bump(counts: map<Impact, nat>, impact: Impact): map<Impact, nat>
  {
    counts[impact := (if impact in counts then counts[impact] else 0) + 1]
  }

  /** One register id with its rows and its entry. */
  function Classify(a: Assessment, id: string, rows: seq<Row>, entry: Option<PolicyEntry>): Assessment
    requires rows != []
  {
    if |rows| != 1 then
      a.(errors := a.errors + [DuplicateRows(id)],
         repositoryBlockers := a.repositoryBlockers + if exists row <- rows :: !Closed(row.state) then {DuplicateOpen(id)} else {})
    else
      var state := rows[0].state;
      if entry.None? || entry.value.NotObject? || entry.value.impact.None? then
        a.(errors := a.errors + [MissingPolicy(id)],
           repositoryBlockers := a.repositoryBlockers + if Closed(state) then {} else {Unclassified(id, state)})
      else
        var impact := entry.value.impact.value;
        var counted := a.(impactCounts := Bump(a.impactCounts, impact));
        if Closed(state) then counted
        else
          var withOpen := counted.(openImpactCounts := Bump(a.openImpactCounts, impact));
          var listed := Listed(id, state);
          match impact
          case G0_FAIL => withOpen.(repositoryBlockers := a.repositoryBlockers + {listed})
          case G0_REVIEW_REQUIRED => withOpen.(reviewRequiredRisks := a.reviewRequiredRisks + {listed})
          case LATER_GATE => withOpen.(laterGateRisks := a.laterGateRisks + {listed})
          case SEPARATE_INCIDENT => withOpen.(separateIncidents := a.separateIncidents + {listed})
  }

  function ClassifyAll(a: Assessment, ids: seq<string>, rows: seq<Row>, objects: seq<PolicyEntry>): Assessment
    requires forall id <- ids :: Group(RowId, id, rows) != []
    decreases |ids|
  {
    if ids == [] then a
    else
      ClassifyAll(Classify(a, ids[0], Group(RowId, ids[0], rows), Valid(ids[0], objects)), ids[1..], rows, objects)
  }

  function OrphanErrors(ids: seq<string>, rows: seq<Row>): seq<Error>
  {
    if ids == [] then []
    else OrphanError(ids[0], rows) + OrphanErrors(ids[1..], rows)
  }

  function OrphanError(id: string, rows: seq<Row>): seq<Error>
  {
    if Group(RowId, id, rows) == [] then [NoRegisterRow(id)] else []
  }

  function EarlyErrors(lines: seq<Line>, policy: Policy): seq<Error>
  {
    var objects := Objects(Entries(policy));
    RegisterErrors(lines) + HeaderErrors(policy) + ObjectErrors(Entries(policy), 0)
    + PolicyErrors(Unique(Map(IdOf, objects)), objects)
  }

  function Start(lines: seq<Line>, policy: Policy): Assessment
  {
    Assessment(EarlyErrors(lines, policy), NO_COUNTS, NO_COUNTS, {}, {}, {}, {})
  }

  /** The groups of the register ids are not empty. */
  lemma {:induction false} KeysHaveRows(ids: seq<string>, rows: seq<Row>)
    requires forall id <- ids :: id in Map(RowId, rows)
    ensures forall id <- ids :: Group(RowId, id, rows) != []
  {
    forall id | id in ids ensures Group(RowId, id, rows) != [] {
      var i :| 0 <= i < |rows| && Map(RowId, rows)[i] == id;
      assert rows[i] in Group(RowId, id, rows);
    }
  }

  function RegisterIds(lines: seq<Line>): (ids: seq<string>)
    ensures forall id <- ids :: Group(RowId, id, RowsOf(lines)) != []
  {
    var rows := RowsOf(lines);
    UniqueOf(Map(RowId, rows));
    KeysHaveRows(Unique(Map(RowId, rows)), rows);
    Unique(Map(RowId, rows))
  }

  function PolicyIds(policy: Policy): seq<string> { Unique(Map(IdOf, Objects(Entries(policy)))) }

  function Classified(lines: seq<Line>, policy: Policy): Assessment
  {
    ClassifyAll(Start(lines, policy), RegisterIds(lines), RowsOf(lines), Objects(Entries(policy)))
  }

  /** What `evaluateGate0RiskPolicy` returns. */
  function Assess(lines: seq<Line>, policy: Policy): Assessment
  {
    var a := Classified(lines, policy);
    a.(errors := a.errors + OrphanErrors(PolicyIds(policy), RowsOf(lines)))
  }

  predicate IsValid(a: Assessment) { a.errors == [] }

  // ---- the program ----

  /** `parseRiskRegister`. */
  method ParseRiskRegister(lines: seq<Line>) returns (rows: seq<Row>, errors: seq<Error>)
    ensures rows == RowsOf(lines) && errors == RegisterErrors(lines)
  {
    hide RowsOf, LineErrors;
    rows, errors := [], [];
    assert lines[0..] == lines;
    for i := 0 to |lines|
      invariant rows + RowsOf(lines[i..]) == RowsOf(lines)
      invariant errors + LineErrors(lines[i..], i + 1) == LineErrors(lines, 1)
    {
      NextLine(lines, i);
      Regroup(rows, LineRows(lines[i]), RowsOf(lines[i + 1..]));
      Regroup(errors, LineError(lines[i], i + 1), LineErrors(lines[i + 1..], i + 2));
      match lines[i] {
        case Plain =>
        case WrongColumns => errors := errors + [LineColumns(i + 1)];
        case RiskRow(riskId, state, emptyField) =>
          if emptyField { errors := errors + [EmptyField(riskId)]; }
          rows := rows + [Row(riskId, state)];
      }
    }
    NoLines();
    assert lines[|lines|..] == [];
    if rows == [] { errors := errors + [NoRows]; }
  }

  lemma NoLines()
    ensures RowsOf([]) == [] && forall number :: LineErrors([], number) == []
  {
  }

  lemma NextLine(lines: seq<Line>, i: nat)
    requires i < |lines|
    ensures RowsOf(lines[i..]) == LineRows(lines[i]) + RowsOf(lines[i + 1..])
    ensures LineErrors(lines[i..], i + 1) == LineError(lines[i], i + 1) + LineErrors(lines[i + 1..], i + 2)
  {
    assert lines[i..][1..] == lines[i + 1..];
  }

  /** The loop over the policy groups: their errors and the entries without any. */
  method ReadPolicy(ids: seq<string>, groups: map<string, seq<PolicyEntry>>, objects: seq<PolicyEntry>)
    returns (errors: seq<Error>, validEntries: map<string, PolicyEntry>)
    requires forall id <- ids :: id in groups && groups[id] == Group(IdOf, id, objects)
    ensures errors == PolicyErrors(ids, objects)
    ensures forall id :: id in validEntries <==> id in ids && Valid(id, objects).Some?
    ensures forall id :: id in validEntries ==> Valid(id, objects) == Some(validEntries[id])
  {
    hide Group, GroupErrors;
    errors, validEntries := [], map[];
    assert ids[0..] == ids;
    for i := 0 to |ids|
      invariant errors + PolicyErrors(ids[i..], objects) == PolicyErrors(ids, objects)
      invariant forall id :: id in validEntries <==> id in ids[..i] && Valid(id, objects).Some?
      invariant forall id :: id in validEntries ==> Valid(id, objects) == Some(validEntries[id])
    {
      var id := ids[i];
      assert ids[i..][0] == id && ids[i..][1..] == ids[i + 1..] && ids[..i + 1] == ids[..i] + [id];
      var problems := GroupErrors(id, groups[id]);
      Regroup(errors, problems, PolicyErrors(ids[i + 1..], objects));
      errors := errors + problems;
      if problems == [] && groups[id] != [] { validEntries := validEntries[id := groups[id][0]]; }
    }
    assert ids[..|ids|] == ids;
  }

  /** The loop over the register groups. */
  method ReadRegister(start: Assessment, ids: seq<string>, groups: map<string, seq<Row>>, rows: seq<Row>,
                      validEntries: map<string, PolicyEntry>, objects: seq<PolicyEntry>)
    returns (a: Assessment)
    requires forall id <- ids :: id in groups && groups[id] == Group(RowId, id, rows) != []
    requires forall id <- ids :: Valid(id, objects) == if id in validEntries then Some(validEntries[id]) else None
    ensures a == ClassifyAll(start, ids, rows, objects)
  {
    hide Group, Classify, Valid;
    a := start;
    assert ids[0..] == ids;
    for i := 0 to |ids|
      invariant ClassifyAll(a, ids[i..], rows, objects) == ClassifyAll(start, ids, rows, objects)
    {
      var id := ids[i];
      assert ids[i..][0] == id && ids[i..][1..] == ids[i + 1..];
      a := Classify(a, id, groups[id], if id in validEntries then Some(validEntries[id]) else None);
    }
  }

  /** The loop over the policy ids without a register row. */
  method FindOrphans(ids: seq<string>, registerIds: seq<string>, rows: seq<Row>) returns (errors: seq<Error>)
    requires registerIds == Unique(Map(RowId, rows))
    ensures errors == OrphanErrors(ids, rows)
  {
    hide Group, Unique, Map;
    errors := [];
    assert ids[0..] == ids;
    for i := 0 to |ids|
      invariant errors + OrphanErrors(ids[i..], rows) == OrphanErrors(ids, rows)
    {
      assert ids[i..][0] == ids[i] && ids[i..][1..] == ids[i + 1..];
      HasGroup(rows, ids[i]);
      Regroup(errors, OrphanError(ids[i], rows), OrphanErrors(ids[i + 1..], rows));
      if ids[i] !in registerIds { errors := errors + [NoRegisterRow(ids[i])]; }
    }
  }

  /** `evaluateGate0RiskPolicy`. */
  method EvaluateRiskPolicy(lines: seq<Line>, policy: Policy) returns (a: Assessment)
    ensures a == Assess(lines, policy)
  {
    var rows, errors := ParseRiskRegister(lines);
    var registerIds, registerById := GroupBy(rows, RowId);
    var objects := Objects(Entries(policy));
    var policyIds, policyById := GroupBy(objects, IdOf);
    assert registerIds == RegisterIds(lines) && policyIds == PolicyIds(policy);
    forall id ensures Valid(id, objects).Some? ==> id in policyIds { ValidIsPolicy(id, objects); }
    hide Group, Unique, Map, Valid, Classify, ClassifyAll, PolicyErrors, OrphanErrors, RowsOf;
    var policyErrors, validEntries := ReadPolicy(policyIds, policyById, objects);
    errors := errors + HeaderErrors(policy) + ObjectErrors(Entries(policy), 0) + policyErrors;
    a := Assessment(errors, NO_COUNTS, NO_COUNTS, {}, {}, {}, {});
    a := ReadRegister(a, registerIds, registerById, rows, validEntries, objects);
    var orphans := FindOrphans(policyIds, registerIds, rows);
    a := a.(errors := a.errors + orphans);
  }

  /** Only ids of the policy have an entry. */
  lemma ValidIsPolicy(id: string, objects: seq<PolicyEntry>)
    ensures Valid(id, objects).Some? ==> id in Unique(Map(IdOf, objects))
  {
    UniqueOf(Map(IdOf, objects));
    var group := Group(IdOf, id, objects);
    if group != [] {
      assert group[0] in objects;
      var i :| 0 <= i < |objects| && objects[i] == group[0];
      assert Map(IdOf, objects)[i] == id;
    }
  }

  lemma HasGroup(rows: seq<Row>, id: string)
    ensures id in Unique(Map(RowId, rows)) <==> Group(RowId, id, rows) != []
  {
    UniqueOf(Map(RowId, rows));
    var group := Group(RowId, id, rows);
    if group != [] {
      assert group[0] in rows;
      var i :| 0 <= i < |rows| && rows[i] == group[0];
      assert Map(RowId, rows)[i] == id;
    } else if id in Map(RowId, rows) {
      KeysHaveRows([id], rows);
    }
  }
}
