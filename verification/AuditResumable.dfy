/** Which runs can be resumed: what the engine leaves on disk against what a resume accepts. */
module AuditResumable {
  import opened Common
  import opened AuditRow
  import opened AuditEngine
  import opened AuditInvariant
  import AuditResume
  import opened AuditEvidence

  /** The log of a row, if it has one, is still where it was, with the same content. */
  predicate LogKept(row: Row, logs: map<string, LogFile>)
  {
    row.logSha256.Some? ==> row.logPath.Some? && LogAt(logs, row.logPath.value) == Regular(row.logSha256.value)
  }

  /** Cleanup, source tree and log digest of a row are recorded. */
  predicate RowComplete(row: Row, source: Source)
  {
    && row.logSha256.Some? && row.cleanup.Some? && CleanupComplete(row.cleanup.value)
    && (source.allowDirty || (row.sourceTree.Some? && TreeComplete(row.sourceTree.value, source)))
  }

  /** The one kind of row that a resume refuses: a failure with a hole in its evidence. */
  predicate Blocks(row: Row, source: Source) { row.status == FAIL && !RowComplete(row, source) }

  lemma OriginalAccepted(suite: Suite, source: Source, origin: Origin, logs: map<string, LogFile>)
    requires Possible(origin)
    requires var row := Original(suite, source, origin); Resumable(row) && LogKept(row, logs)
    ensures var row := Original(suite, source, origin);
            CheckRow(row, suite, source, logs).None? <==> !Blocks(row, source)
  {
    var end := origin.end;
    var row := Original(suite, source, origin);
    if EvidenceComplete(end, source) { EmittedRowAccepted(suite, source, origin.logPath, end, logs); }
    assert RowComplete(row, source) <==> EvidenceComplete(end, source);
  }

  lemma OriginOf(c: Config, row: Row) returns (suite: Suite, origin: Origin)
    requires Produced(c, row)
    ensures suite in c.selected && Possible(origin) && row == Original(suite, c.source, origin)
  {
    hide Original;
    suite :| suite in c.selected && ProducedFrom(c, suite, row);
    origin :| Possible(origin) && row == Original(suite, c.source, origin);
  }

  lemma RowAccepted(c: Config, row: Row, logs: map<string, LogFile>)
    requires Valid(c) && Produced(c, row) && Resumable(row) && LogKept(row, logs)
    ensures row.id in ById(c.selected)
    ensures CheckRow(row, ById(c.selected)[row.id], c.source, logs).None? <==> !Blocks(row, c.source)
  {
    var suite, origin := OriginOf(c, row);
    assert row.id == suite.id;
    assert Distinct(SuiteIds(c.selected));
    hide *;
    ByIdIs(c.selected, suite);
    OriginalAccepted(suite, c.source, origin, logs);
  }

  lemma {:induction false} RowsAccepted(c: Config, rows: seq<Row>, seen: set<string>, logs: map<string, LogFile>)
    requires Valid(c) && Distinct(Ids(rows)) && forall id <- Ids(rows) :: id !in seen
    requires forall row <- rows :: Produced(c, row) && LogKept(row, logs)
    ensures Completed(rows, seen, ById(c.selected), c.source, logs).Ok? <==>
            forall row <- rows :: !Blocks(row, c.source)
  {
    hide Produced, LogKept, CheckRow;
    if rows != [] {
      var first, rest := rows[0], rows[1..];
      assert rows == [first] + rest;
      IdsCons(first, rest);
      assert Ids(rest) == Ids(rows)[1..];
      if Resumable(first) { RowAccepted(c, first, logs); }
      hide Valid, Blocks;
      RowsAccepted(c, rest, if Resumable(first) then seen + {first.id} else seen, logs);
      assert Blocks(first, c.source) ==> Resumable(first) by { FailuresResume(first, c.source); }
    }
  }

  lemma FailuresResume(row: Row, source: Source)
    ensures Blocks(row, source) ==> Resumable(row)
  {
  }

  /** The rows on disk; none before the first checkpoint. */
  function DiskRows(w: World): seq<Row> { if w.checkpoint.Some? then w.checkpoint.value else [] }

  /**
   A run whose process is dead resumes, with all its resumable rows, exactly when its inventory was
   written and no row on disk is a failure with incomplete evidence; so neither a PASS nor a TIMEOUT
   row makes a run unresumable.
   */
  lemma ResumesExactly(c: Config, events: seq<Event>, logs: map<string, LogFile>)
    requires Valid(c)
    requires var w := Run(c, INITIAL, events);
             w.process.None? && !w.starting && forall row <- DiskRows(w) :: LogKept(row, logs)
    ensures var w := Run(c, INITIAL, events);
            Step(c, w, Begin(true, logs)) ==
            if w.inventory && forall row <- DiskRows(w) :: !Blocks(row, c.source)
            then Launch(c, w, Filter(Resumable, DiskRows(w))) else w
  {
    var w := Run(c, INITIAL, events);
    RunKeeps(c, INITIAL, events);
    RunProduced(c, INITIAL, events);
    var rows := DiskRows(w);
    assert w.inventory ==> w.created;
    assert w.checkpoint.Some? ==> Distinct(Ids(rows)) && forall row <- rows :: Produced(c, row);
    hide Run, Inv, AllProduced, Produced, LogKept, Blocks, Completed, Launch, Valid;
    if w.checkpoint.Some? {
      RowsAccepted(c, rows, {}, logs);
      if Completed(rows, {}, ById(c.selected), c.source, logs).Ok? {
        CompletedAll(rows, {}, ById(c.selected), c.source, logs);
      }
    }
  }

  /** The directory is there, the inventory is not, and nobody is going to write it. */
  predicate Abandoned(w: World) { w.created && !w.inventory && !w.starting && w.process.None? }

  /** An abandoned run is never picked up again, fresh or resumed: only time passes. */
  lemma {:induction false} AbandonedForever(c: Config, w: World, events: seq<Event>)
    requires Abandoned(w)
    ensures Run(c, w, events) == w.(now := Run(c, w, events).now)
    decreases |events|
  {
    if events != [] { AbandonedForever(c, Step(c, w, events[0]), events[1..]); }
  }

  /** It happens to a process that dies between the creation of the directory and the write of the inventory. */
  lemma AbandonedHappens(c: Config) returns (events: seq<Event>)
    ensures Abandoned(Run(c, INITIAL, events))
  {
    events := [Begin(false, map[])] + ([Die] + []);
    var w := INITIAL.(created := true, starting := true);
    assert Step(c, INITIAL, Begin(false, map[])) == w;
    RunAhead(c, w, Die, []);
    RunAhead(c, INITIAL, Begin(false, map[]), [Die] + []);
  }

  /** A dead run is refused, fresh and resumed, exactly when it is abandoned or a row on disk blocks, given unchanged logs. */
  lemma RefusedExactly(c: Config, events: seq<Event>, logs: map<string, LogFile>)
    requires Valid(c)
    requires var w := Run(c, INITIAL, events);
             w.process.None? && !w.starting && w.created && forall row <- DiskRows(w) :: LogKept(row, logs)
    ensures var w := Run(c, INITIAL, events);
            Step(c, w, Begin(true, logs)) == w && Step(c, w, Begin(false, logs)) == w <==>
            Abandoned(w) || exists row <- DiskRows(w) :: Blocks(row, c.source)
  {
    var w := Run(c, INITIAL, events);
    ResumesExactly(c, events, logs);
    assert Step(c, w, Begin(false, logs)) == w;
    assert Launch(c, w, Filter(Resumable, DiskRows(w))).process.Some?;
    hide Run, Valid, LogKept, Blocks, Launch, Step;
  }

  /** A child that failed, and whose output could not be hashed. */
  function Unhashed(revision: string): ChildEnd
  {
    ChildEnd(false, Some(1), None, false, Cleanup(true, false, Some(true)), SourceTree(true, Some(true), Some(revision)),
             false, false, false, None)
  }

  function FailedRow(c: Config, logPath: string): Row
    requires c.selected != []
  {
    ExecutedRow(c.selected[0], c.source, logPath, Unhashed(c.source.revision))
  }

  lemma FailedRowBlocks(c: Config, logPath: string, logs: map<string, LogFile>)
    requires c.selected != []
    ensures Blocks(FailedRow(c, logPath), c.source) && LogKept(FailedRow(c, logPath), logs)
    ensures Observable(Unhashed(c.source.revision))
    ensures RowOf(c.selected[0], c.source, None, WasExecuted(logPath, Unhashed(c.source.revision))) == FailedRow(c, logPath)
  {
  }

  /** The invocation that has recorded the row of its first suite, not yet on disk. */
  function Recorded(c: Config, row: Row): Process
    requires c.selected != [] && c.concurrency >= 1
  {
    Process([], c.selected, c.deadlineMs, 1, [row], Bad(row), seq(c.concurrency, _ => Idle)[0 := Waiting(1)],
            1, 0, None, None, Working)
  }

  lemma FirstSteps(c: Config, outcome: Outcome, row: Row)
    requires Valid(c) && c.selected != [] && c.deadlineMs > 0 && !outcome.WasInterrupted?
    requires outcome.WasExecuted? ==> Observable(outcome.end) && outcome.logPath != ""
    requires RowOf(c.selected[0], c.source, None, outcome) == row
    ensures Run(c, INITIAL, [Begin(false, map[]), WriteInventory, Take(0), Record(0, outcome)]) ==
            World(true, true, false, None, 0, [c.selected[0].id], Some(Recorded(c, row)))
  {
    hide RowOf, Observable, Bad;
    var suite := c.selected[0];
    FilterAll((s: Suite) => s.id !in Ids([]), c.selected);
    var p0 := Process([], c.selected, c.deadlineMs, 0, [], false, seq(c.concurrency, _ => Idle), 0, 0, None, None, Working);
    var p1 := p0.(cursor := 1, workers := p0.workers[0 := Running(suite)]);
    var start := INITIAL.(created := true, starting := true);
    var w0 := World(true, true, false, None, 0, [], Some(p0));
    var w1 := w0.(started := [suite.id], process := Some(p1));
    var w2 := w1.(process := Some(Recorded(c, row)));
    assert Step(c, INITIAL, Begin(false, map[])) == start;
    assert Step(c, start, WriteInventory) == w0;
    assert Step(c, w0, Take(0)) == w1;
    assert [] + [row] == [row] && p1.workers[0 := Waiting(1)] == p0.workers[0 := Waiting(1)];
    assert Step(c, w1, Record(0, outcome)) == w2;
    hide Step, Recorded;
    assert Run(c, w2, []) == w2;
    RunAhead(c, w1, Record(0, outcome), []);
    RunAhead(c, w0, Take(0), [Record(0, outcome)]);
    RunAhead(c, start, WriteInventory, [Take(0), Record(0, outcome)]);
    RunAhead(c, INITIAL, Begin(false, map[]), [WriteInventory, Take(0), Record(0, outcome)]);
  }

  /** One outstanding write reaches the disk, and then the process dies. */
  lemma Flush(c: Config, w: World, p: Process)
    requires w.process == Some(p) && !w.starting && p.snapshot.None? && p.written < p.enqueued
    ensures Run(c, w, [Serialize, Rename, Die]) == w.(checkpoint := Some(p.results), process := None)
  {
    var w1 := w.(process := Some(p.(snapshot := Some(p.results))));
    var w2 := w.(checkpoint := Some(p.results), process := Some(p.(written := p.written + 1)));
    assert Step(c, w, Serialize) == w1;
    assert Step(c, w1, Rename) == w2;
    Died(c, w2);
    hide Step;
    RunAhead(c, w2, Die, []);
    RunAhead(c, w1, Rename, [Die]);
    RunAhead(c, w, Serialize, [Rename, Die]);
  }

  lemma FirstRow(c: Config, outcome: Outcome, row: Row) returns (events: seq<Event>)
    requires Valid(c) && c.selected != [] && c.deadlineMs > 0 && !outcome.WasInterrupted?
    requires outcome.WasExecuted? ==> Observable(outcome.end) && outcome.logPath != ""
    requires RowOf(c.selected[0], c.source, None, outcome) == row
    ensures Run(c, INITIAL, events) == World(true, true, false, Some([row]), 0, [c.selected[0].id], None)
  {
    hide RowOf, Observable, Bad, Run;
    var before := [Begin(false, map[]), WriteInventory, Take(0), Record(0, outcome)];
    FirstSteps(c, outcome, row);
    Flush(c, Run(c, INITIAL, before), Recorded(c, row));
    AuditResume.RunSplits(c, INITIAL, before, [Serialize, Rename, Die]);
    events := before + [Serialize, Rename, Die];
  }

  lemma Died(c: Config, w: World)
    requires w.process.Some?
    ensures Run(c, Step(c, w, Die), []) == w.(starting := false, process := None)
  {
  }

  /** It happens: after the failure of a suite whose output could not be hashed the run cannot be resumed. */
  lemma UnresumableHappens(c: Config, logPath: string, logs: map<string, LogFile>) returns (events: seq<Event>)
    requires Valid(c) && c.selected != [] && c.deadlineMs > 0 && logPath != ""
    ensures var w := Run(c, INITIAL, events);
            && w.process.None? && w.inventory && (forall row <- DiskRows(w) :: LogKept(row, logs))
            && Step(c, w, Begin(true, logs)) == w
  {
    var row := FailedRow(c, logPath);
    FailedRowBlocks(c, logPath, logs);
    hide *;
    events := FirstRow(c, WasExecuted(logPath, Unhashed(c.source.revision)), row);
    assert row in [row];
    ResumesExactly(c, events, logs);
  }

  lemma RunAhead(c: Config, w: World, e: Event, rest: seq<Event>)
    ensures Run(c, w, [e] + rest) == Run(c, Step(c, w, e), rest)
  {
    assert ([e] + rest)[1..] == rest;
  }
}
