/** Result rows of the audit: how a finished child becomes a row, and which rows a resume accepts. */
module AuditRow {
  import opened Common

  datatype Status = PASS | FAIL | TIMEOUT | BLOCKED | SKIPPED

  datatype SkipReason = Interrupted(signal: string) | TotalDeadline | FailFast

  datatype Requirements = Requirements(
    server: bool, ollama: bool, gpu: bool, modelFixture: bool, externalNetwork: bool, toolchain: seq<string>)

  /** A registry suite. Its `command` in reports is `argv`, its `category` is `profile`. */
  datatype Suite = Suite(
    id: string, path: string, profile: string, argv: seq<string>, required: bool,
    state: string, timeoutMs: nat, requirements: Requirements)

  datatype Cleanup = Cleanup(checked: bool, leakDetected: bool, terminated: Option<bool>)

  datatype SourceTree = SourceTree(checked: bool, clean: Option<bool>, head: Option<string>)

  datatype Row = Row(
    id: string, path: string, profile: string, command: seq<string>, required: bool, sourceRevision: string,
    status: Status, exitCode: Option<int>, signal: Option<string>, timedOut: bool,
    blockedBy: seq<string>, skipReason: Option<SkipReason>,
    logPath: Option<string>, logSha256: Option<string>,
    cleanup: Option<Cleanup>, sourceTree: Option<SourceTree>)

  /** The source the audit runs against. */
  datatype Source = Source(revision: string, allowDirty: bool)

  predicate Resumable(row: Row) { row.status == PASS || row.status == FAIL || row.status == TIMEOUT }

  /** A result that fails a required suite. */
  predicate Bad(row: Row) { row.required && row.status != PASS }

  function Ids(rows: seq<Row>): (r: seq<string>)
    ensures |r| == |rows|
  {
    Map((row: Row) => row.id, rows)
  }

  function SuiteIds(suites: seq<Suite>): (r: seq<string>)
    ensures |r| == |suites|
  {
    Map((suite: Suite) => suite.id, suites)
  }

  /** The row carries the metadata of the suite. */
  predicate Describes(row: Row, suite: Suite, revision: string)
  {
    && row.id == suite.id && row.path == suite.path && row.profile == suite.profile
    && row.command == suite.argv && row.required == suite.required && row.sourceRevision == revision
  }

  // ---- what a worker can produce ----

  /** Everything observed about a child process once its streams are drained. */
  datatype ChildEnd = ChildEnd(
    timedOut: bool, code: Option<int>, signal: Option<string>, spawnError: bool,
    cleanup: Cleanup, tree: SourceTree,
    logError: bool, outputError: bool, closeError: bool, hash: Option<string>)

  predicate Sha256(text: string)
  {
    |text| == 64 && forall c <- text :: '0' <= c <= '9' || 'a' <= c <= 'f'
  }

  /** What Node and the helpers can report: a zero exit has no signal, cleanup and tree evidence
      have one of the shapes their helpers return, and a digest is a digest. */
  predicate Observable(end: ChildEnd)
  {
    && (end.code == Some(0) ==> end.signal.None?)
    && (!end.cleanup.checked ==> !end.cleanup.leakDetected && end.cleanup.terminated.None?)
    && (end.cleanup.checked && !end.cleanup.leakDetected ==> end.cleanup.terminated == Some(true))
    && (end.tree.checked <==> end.tree.clean.Some?) && (end.tree.checked <==> end.tree.head.Some?)
    && (end.hash.Some? ==> Sha256(end.hash.value))
  }

  datatype Outcome =
    | WasInterrupted
    | WasBlocked(blockers: seq<string>)
    | WasExecuted(logPath: string, end: ChildEnd)

  function BaseRow(suite: Suite, source: Source, status: Status): Row
  {
    Row(suite.id, suite.path, suite.profile, suite.argv, suite.required, source.revision,
        status, None, None, false, [], None, None, None, None, None)
  }

  /** `makeSkippedResult`. */
  function SkippedRow(suite: Suite, source: Source, reason: SkipReason): Row
  {
    BaseRow(suite, source, SKIPPED).(skipReason := Some(reason))
  }

  /** `makeBlockedResult`. */
  function BlockedRow(suite: Suite, source: Source, blockers: seq<string>): Row
  {
    BaseRow(suite, source, BLOCKED).(blockedBy := blockers)
  }

  predicate CleanupComplete(cleanup: Cleanup) { cleanup.checked && cleanup.terminated == Some(true) }

  predicate TreeComplete(tree: SourceTree, source: Source)
  {
    source.allowDirty || (tree.checked && tree.clean == Some(true) && tree.head == Some(source.revision))
  }

  /** The evidence that an emitted row must carry to survive a resume. */
  predicate EvidenceComplete(end: ChildEnd, source: Source)
  {
    && CleanupComplete(end.cleanup) && TreeComplete(end.tree, source)
    && !end.logError && !end.closeError && end.hash.Some?
  }

  predicate ExitedCleanly(end: ChildEnd) { !end.timedOut && end.code == Some(0) && !end.spawnError }

  /** The status that the evidence supports. */
  function StatusOf(end: ChildEnd, source: Source): Status
  {
    if !EvidenceComplete(end, source) || end.cleanup.leakDetected || end.outputError then FAIL
    else if end.timedOut then TIMEOUT
    else if ExitedCleanly(end) then PASS
    else FAIL
  }

  function ExecutedRow(suite: Suite, source: Source, logPath: string, end: ChildEnd): Row
  {
    BaseRow(suite, source, StatusOf(end, source)).(
      exitCode := end.code, signal := end.signal, timedOut := end.timedOut,
      logPath := Some(logPath),
      logSha256 := if end.logError || end.closeError then None else end.hash,
      cleanup := Some(end.cleanup), sourceTree := Some(InspectedTree(end, source)))
  }

  /** With `allowDirty` the working tree is not inspected at all. */
  function InspectedTree(end: ChildEnd, source: Source): SourceTree
  {
    if source.allowDirty then SourceTree(false, None, None) else end.tree
  }

  /** The end of `runSuite`, in the order in which it overwrites the status. */
  method RunSuite(suite: Suite, source: Source, logPath: string, end: ChildEnd) returns (row: Row)
    ensures row == ExecutedRow(suite, source, logPath, end)
  {
    var status := if end.timedOut then TIMEOUT else if end.code == Some(0) && !end.spawnError then PASS else FAIL;
    var tree := if source.allowDirty then SourceTree(false, None, None) else end.tree;
    var cleanupEvidenceComplete := end.cleanup.checked && end.cleanup.terminated == Some(true);
    var sourceEvidenceComplete :=
      source.allowDirty || (tree.checked && tree.clean == Some(true) && tree.head == Some(source.revision));
    if end.cleanup.leakDetected || !cleanupEvidenceComplete || !sourceEvidenceComplete
       || end.logError || end.outputError {
      status := FAIL;
    }
    row := Row(suite.id, suite.path, suite.profile, suite.argv, suite.required, source.revision,
               status, end.code, end.signal, end.timedOut, [], None, Some(logPath), None,
               Some(end.cleanup), Some(tree));
    var logError := end.logError;
    if !logError && end.closeError {
      logError := true;
      row := row.(status := FAIL);
    }
    if logError {
      row := row.(logSha256 := None);
    } else if end.hash.Some? {
      row := row.(logSha256 := end.hash);
    } else {
      row := row.(status := FAIL, logSha256 := None);
    }
  }

  /** The row a worker records for a suite it took. */
  function RowOf(suite: Suite, source: Source, signal: Option<string>, outcome: Outcome): Row
  {
    match outcome
    case WasInterrupted => SkippedRow(suite, source, Interrupted(if signal.Some? then signal.value else ""))
    case WasBlocked(blockers) => BlockedRow(suite, source, blockers)
    case WasExecuted(logPath, end) => ExecutedRow(suite, source, logPath, end)
  }

  // ---- resume ----

  datatype LogFile = Escapes | NotRegular | Unreadable | Regular(sha256: string)

  datatype ResumeError =
    | UnknownSuite | DuplicateSuite | MetadataMismatch | RevisionMismatch | NoLogEvidence
    | LogEscapes | LogNotRegular | LogMissing | LogHashMismatch
    | CleanupIncomplete | TreeIncomplete | PassExitInvalid | TimeoutMismatch | PassLeaks | LeakNotFailed

  function LogAt(logs: map<string, LogFile>, path: string): LogFile
  {
    if path in logs then logs[path] else NotRegular
  }

  /** The checks on one row, in order, after its suite is known to be expected and new. */
  function CheckRow(row: Row, expected: Suite, source: Source, logs: map<string, LogFile>): Option<ResumeError>
  {
    if row.path != expected.path || row.command != expected.argv then Some(MetadataMismatch)
    else if row.sourceRevision != source.revision then Some(RevisionMismatch)
    else if row.logPath.None? || row.logPath.value == "" || row.logSha256.None? || !Sha256(row.logSha256.value) then
      Some(NoLogEvidence)
    else
      match LogAt(logs, row.logPath.value)
      case Escapes => Some(LogEscapes)
      case NotRegular => Some(LogNotRegular)
      case Unreadable => Some(LogMissing)
      case Regular(actual) =>
        if actual != row.logSha256.value then Some(LogHashMismatch) else CheckEvidence(row, source)
  }

  function CheckEvidence(row: Row, source: Source): Option<ResumeError>
  {
    if row.cleanup.None? || !CleanupComplete(row.cleanup.value) then Some(CleanupIncomplete)
    else if !source.allowDirty
            && (row.sourceTree.None? || row.sourceTree.value.clean != Some(true)
                || row.sourceTree.value.head != Some(source.revision)) then Some(TreeIncomplete)
    else if row.status == PASS && (row.exitCode != Some(0) || row.signal.Some?) then Some(PassExitInvalid)
    else if (row.status == TIMEOUT && !row.timedOut) || (row.status == PASS && row.timedOut) then Some(TimeoutMismatch)
    else if row.status == PASS && row.cleanup.value.leakDetected then Some(PassLeaks)
    else if row.cleanup.value.leakDetected && row.status != FAIL then Some(LeakNotFailed)
    else None
  }

  /** `new Map(suites.map(suite => [suite.id, suite]))`. */
  function ById(suites: seq<Suite>): (m: map<string, Suite>)
    ensures forall id :: id in m <==> id in SuiteIds(suites)
    ensures forall id :: id in m ==> m[id] in suites && m[id].id == id
  {
    if suites == [] then map[]
    else
      var last := suites[|suites| - 1];
      var front := suites[..|suites| - 1];
      assert SuiteIds(suites) == SuiteIds(front) + [last.id];
      ById(front)[last.id := last]
  }

  /** What `validateCompletedResults` returns or throws, for the rows after the ones already seen. */
  function Completed(
      rows: seq<Row>, seen: set<string>, expected: map<string, Suite>, source: Source, logs: map<string, LogFile>):
    Result<seq<Row>, ResumeError>
  {
    if rows == [] then Ok([])
    else if !Resumable(rows[0]) then Completed(rows[1..], seen, expected, source, logs)
    else if rows[0].id !in expected then Err(UnknownSuite)
    else if rows[0].id in seen then Err(DuplicateSuite)
    else
      match CheckRow(rows[0], expected[rows[0].id], source, logs)
      case Some(e) => Err(e)
      case None =>
        match Completed(rows[1..], seen + {rows[0].id}, expected, source, logs)
        case Err(e) => Err(e)
        case Ok(rest) => Ok([rows[0]] + rest)
  }

  /** `validateCompletedResults`. */
  method ValidateCompletedResults(rows: seq<Row>, suites: seq<Suite>, source: Source, logs: map<string, LogFile>)
    returns (r: Result<seq<Row>, ResumeError>)
    ensures r == Completed(rows, {}, ById(suites), source, logs)
  {
    hide CheckRow, Resumable;
    var expectedById := ById(suites);
    var completed: seq<Row> := [];
    var seenIds: set<string> := {};
    assert rows[0..] == rows && forall rest: seq<Row> :: [] + rest == rest;
    for i := 0 to |rows|
      invariant Completed(rows, {}, expectedById, source, logs) ==
                match Completed(rows[i..], seenIds, expectedById, source, logs)
                case Err(e) => Err(e)
                case Ok(rest) => Ok(completed + rest)
    {
      var row := rows[i];
      assert rows[i..][0] == row && rows[i..][1..] == rows[i + 1..];
      if Resumable(row) {
        if row.id !in expectedById { return Err(UnknownSuite); }
        if row.id in seenIds { return Err(DuplicateSuite); }
        seenIds := seenIds + {row.id};
        var problem := CheckRow(row, expectedById[row.id], source, logs);
        if problem.Some? { return Err(problem.value); }
        ghost var rest := Completed(rows[i + 1..], seenIds, expectedById, source, logs);
        assert rest.Ok? ==> completed + ([row] + rest.value) == completed + [row] + rest.value;
        completed := completed + [row];
      }
    }
    assert completed + [] == completed;
    r := Ok(completed);
  }

  /** What an accepted checkpoint contributes: all its resumable rows, once each, for known suites. */
  lemma {:induction false} CompletedRows(
      rows: seq<Row>, seen: set<string>, expected: map<string, Suite>, source: Source, logs: map<string, LogFile>)
    requires Completed(rows, seen, expected, source, logs).Ok?
    ensures var c := Completed(rows, seen, expected, source, logs).value;
            && c == Filter(Resumable, rows)
            && Distinct(Ids(c))
            && (forall id <- Ids(c) :: id in expected && id !in seen)
            && (forall row <- c :: row.id in expected && CheckRow(row, expected[row.id], source, logs).None?)
  {
    hide *;
    CompletedAll(rows, seen, expected, source, logs);
    CompletedOnce(rows, seen, expected, source, logs);
    CompletedChecked(rows, seen, expected, source, logs);
  }

  lemma {:induction false} CompletedAll(
      rows: seq<Row>, seen: set<string>, expected: map<string, Suite>, source: Source, logs: map<string, LogFile>)
    requires Completed(rows, seen, expected, source, logs).Ok?
    ensures Completed(rows, seen, expected, source, logs).value == Filter(Resumable, rows)
  {
    hide CheckRow;
    if rows != [] {
      CompletedAll(rows[1..], if Resumable(rows[0]) then seen + {rows[0].id} else seen, expected, source, logs);
    }
  }

  lemma {:induction false} CompletedOnce(
      rows: seq<Row>, seen: set<string>, expected: map<string, Suite>, source: Source, logs: map<string, LogFile>)
    requires Completed(rows, seen, expected, source, logs).Ok?
    ensures var c := Completed(rows, seen, expected, source, logs).value;
            Distinct(Ids(c)) && forall id <- Ids(c) :: id in expected && id !in seen
  {
    hide CheckRow, Resumable;
    if rows != [] {
      if !Resumable(rows[0]) {
        CompletedOnce(rows[1..], seen, expected, source, logs);
      } else {
        var first, more := rows[0], seen + {rows[0].id};
        CompletedOnce(rows[1..], more, expected, source, logs);
        var rest := Completed(rows[1..], more, expected, source, logs).value;
        assert Completed(rows, seen, expected, source, logs).value == [first] + rest;
        hide *;
        IdsCons(first, rest);
      }
    }
  }

  lemma IdsCons(first: Row, rest: seq<Row>)
    ensures Ids([first] + rest) == [first.id] + Ids(rest)
  {
  }

  lemma {:induction false} CompletedChecked(
      rows: seq<Row>, seen: set<string>, expected: map<string, Suite>, source: Source, logs: map<string, LogFile>)
    requires Completed(rows, seen, expected, source, logs).Ok?
    ensures forall row <- Completed(rows, seen, expected, source, logs).value ::
              row.id in expected && CheckRow(row, expected[row.id], source, logs).None?
  {
    hide CheckRow, Resumable;
    if rows != [] {
      CompletedChecked(rows[1..], if Resumable(rows[0]) then seen + {rows[0].id} else seen, expected, source, logs);
    }
  }

  // ---- main results ----

  /** What a resume needs of one row; the log must still have the digest of the row. */
  predicate Trustworthy(row: Row, suite: Suite, source: Source, logs: map<string, LogFile>)
  {
    && row.path == suite.path && row.command == suite.argv && row.sourceRevision == source.revision
    && row.logPath.Some? && row.logPath.value != "" && row.logSha256.Some? && Sha256(row.logSha256.value)
    && row.logPath.value in logs && logs[row.logPath.value] == Regular(row.logSha256.value)
    && row.cleanup.Some? && row.cleanup.value.checked && row.cleanup.value.terminated == Some(true)
    && (source.allowDirty || (row.sourceTree.Some? && row.sourceTree.value.clean == Some(true)
                              && row.sourceTree.value.head == Some(source.revision)))
    && (row.status == PASS ==>
          row.exitCode == Some(0) && row.signal.None? && !row.timedOut && !row.cleanup.value.leakDetected)
    && (row.status == TIMEOUT ==> row.timedOut && !row.cleanup.value.leakDetected)
  }

  lemma CheckedRow(row: Row, suite: Suite, source: Source, logs: map<string, LogFile>)
    requires Resumable(row)
    ensures CheckRow(row, suite, source, logs).None? <==> Trustworthy(row, suite, source, logs)
  {
    hide Sha256;
  }

  lemma {:induction false} AcceptedFrom(
      rows: seq<Row>, seen: set<string>, expected: map<string, Suite>, source: Source, logs: map<string, LogFile>)
    ensures Completed(rows, seen, expected, source, logs).Ok? <==>
            var resumable := Filter(Resumable, rows);
            && Distinct(Ids(resumable)) && (forall id <- Ids(resumable) :: id !in seen)
            && (forall row <- resumable :: row.id in expected && Trustworthy(row, expected[row.id], source, logs))
  {
    if rows != [] {
      var row, rest := rows[0], rows[1..];
      if !Resumable(row) {
        hide Trustworthy, CheckRow, Resumable;
        AcceptedFrom(rest, seen, expected, source, logs);
      } else {
        if row.id in expected { CheckedRow(row, expected[row.id], source, logs); }
        hide Trustworthy, CheckRow, Resumable;
        AcceptedFrom(rest, seen + {row.id}, expected, source, logs);
        FirstAccepted(row, Filter(Resumable, rest), seen);
      }
    }
  }

  /** A checkpoint is accepted exactly if its executed rows are for known suites, none twice, and all trustworthy; they are kept. */
  lemma AcceptedExactly(rows: seq<Row>, expected: map<string, Suite>, source: Source, logs: map<string, LogFile>)
    ensures var kept := Completed(rows, {}, expected, source, logs);
            var executed := Filter((r: Row) => r.status != BLOCKED && r.status != SKIPPED, rows);
            && (kept.Ok? <==>
                  && Distinct(Ids(executed))
                  && (forall row <- executed :: row.id in expected && Trustworthy(row, expected[row.id], source, logs)))
            && (kept.Ok? ==> kept.value == executed)
  {
    AcceptedFrom(rows, {}, expected, source, logs);
    FilterSame(Resumable, (r: Row) => r.status != BLOCKED && r.status != SKIPPED, rows);
    if Completed(rows, {}, expected, source, logs).Ok? { CompletedRows(rows, {}, expected, source, logs); }
    hide Trustworthy, CheckRow, Completed;
  }

  lemma FirstAccepted(row: Row, rest: seq<Row>, seen: set<string>)
    ensures Distinct(Ids([row] + rest)) && (forall id <- Ids([row] + rest) :: id !in seen) <==>
            row.id !in seen && Distinct(Ids(rest)) && forall id <- Ids(rest) :: id !in seen + {row.id}
  {
    IdsCons(row, rest);
    FirstNew(row.id, Ids(rest), seen);
  }

  lemma FirstNew(id: string, ids: seq<string>, seen: set<string>)
    ensures var all := [id] + ids;
            Distinct(all) && (forall x <- all :: x !in seen) <==>
            id !in seen && Distinct(ids) && forall x <- ids :: x !in seen + {id}
  {
    DistinctCons(id, ids);
    hide Distinct;
    assert forall x :: x in [id] + ids <==> x == id || x in ids;
  }

  /** The status of an emitted row, in all cases. */
  lemma StatusExactly(suite: Suite, source: Source, logPath: string, end: ChildEnd)
    ensures var row := ExecutedRow(suite, source, logPath, end);
            var clean := source.allowDirty || (end.tree.checked && end.tree.clean == Some(true) && end.tree.head == Some(source.revision));
            var sound := clean && end.cleanup.checked && end.cleanup.terminated == Some(true) && !end.cleanup.leakDetected
                         && end.hash.Some? && !end.logError && !end.closeError && !end.outputError;
            && (row.status == TIMEOUT <==> sound && end.timedOut)
            && (row.status == PASS <==> sound && !end.timedOut && end.code == Some(0) && !end.spawnError)
            && (row.status == FAIL <==> !sound || (!end.timedOut && (end.code != Some(0) || end.spawnError)))
            && row.id == suite.id && row.path == suite.path && row.profile == suite.profile && row.command == suite.argv
            && row.required == suite.required && row.sourceRevision == source.revision
            && row.exitCode == end.code && row.signal == end.signal && row.timedOut == end.timedOut
            && row.cleanup == Some(end.cleanup) && (!source.allowDirty ==> row.sourceTree == Some(end.tree))
            && (source.allowDirty ==> row.sourceTree == Some(SourceTree(false, None, None)))
            && row.logPath == Some(logPath) && row.logSha256 == (if end.logError || end.closeError then None else end.hash)
  {
  }

  /** An emitted row survives a resume, with its log unchanged, exactly when its evidence was complete. */
  lemma EmittedRowAccepted(suite: Suite, source: Source, logPath: string, end: ChildEnd, logs: map<string, LogFile>)
    requires Observable(end) && logPath != ""
    requires end.hash.Some? ==> LogAt(logs, logPath) == Regular(end.hash.value)
    ensures CheckRow(ExecutedRow(suite, source, logPath, end), suite, source, logs).None? <==>
            EvidenceComplete(end, source)
  {
  }

  /** So a passed suite never makes a run unresumable, with or without `allowDirty`. */
  lemma PassedRowAccepted(suite: Suite, source: Source, logPath: string, end: ChildEnd, logs: map<string, LogFile>)
    requires Observable(end) && logPath != ""
    requires end.hash.Some? ==> LogAt(logs, logPath) == Regular(end.hash.value)
    requires ExecutedRow(suite, source, logPath, end).status == PASS
    ensures CheckRow(ExecutedRow(suite, source, logPath, end), suite, source, logs).None?
    ensures ExitedCleanly(end) && !end.cleanup.leakDetected
  {
    EmittedRowAccepted(suite, source, logPath, end, logs);
  }

  /** No emitted row, whatever its status, contradicts itself about timeouts or leaks. */
  lemma EmittedRowConsistent(suite: Suite, source: Source, logPath: string, end: ChildEnd)
    ensures CheckEvidence(ExecutedRow(suite, source, logPath, end), source) != Some(TimeoutMismatch)
    ensures CheckEvidence(ExecutedRow(suite, source, logPath, end), source) != Some(PassLeaks)
    ensures CheckEvidence(ExecutedRow(suite, source, logPath, end), source) != Some(LeakNotFailed)
  {
  }
}
