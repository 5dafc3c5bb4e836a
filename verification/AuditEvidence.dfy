/** From the engine to the contract: what a finished run leaves is what the orchestrator accepts. */
module AuditEvidence {
  import opened Common
  import opened Sorting
  import opened AuditRow
  import opened AuditEngine
  import opened AuditInvariant
  import opened AuditResume
  import opened AuditReport
  import opened AuditContract

  // ---- every row was produced by a worker or the skip loop, in this or an earlier invocation ----

  datatype Origin = FromSkip(reason: SkipReason) | FromBlockers(blockers: seq<string>) | FromChild(logPath: string, end: ChildEnd)

  function Original(suite: Suite, source: Source, origin: Origin): Row
  {
    match origin
    case FromSkip(reason) => SkippedRow(suite, source, reason)
    case FromBlockers(blockers) => BlockedRow(suite, source, blockers)
    case FromChild(logPath, end) => ExecutedRow(suite, source, logPath, end)
  }

  predicate Possible(origin: Origin) { origin.FromChild? ==> Observable(origin.end) && origin.logPath != "" }

  ghost predicate ProducedFrom(c: Config, suite: Suite, row: Row)
  {
    exists origin :: Possible(origin) && row == Original(suite, c.source, origin)
  }

  ghost predicate Produced(c: Config, row: Row) { exists suite <- c.selected :: ProducedFrom(c, suite, row) }

  ghost predicate AllProduced(c: Config, w: World)
  {
    && (w.checkpoint.Some? ==> forall row <- w.checkpoint.value :: Produced(c, row))
    && (w.process.Some? ==> forall row <- w.process.value.results :: Produced(c, row))
  }

  lemma RecordProduces(c: Config, suite: Suite, signal: Option<string>, outcome: Outcome)
    requires suite in c.selected && (outcome.WasExecuted? ==> Observable(outcome.end) && outcome.logPath != "")
    ensures Produced(c, RowOf(suite, c.source, signal, outcome))
  {
    var origin :=
      match outcome
      case WasInterrupted => FromSkip(Interrupted(if signal.Some? then signal.value else ""))
      case WasBlocked(blockers) => FromBlockers(blockers)
      case WasExecuted(logPath, end) => FromChild(logPath, end);
    assert Possible(origin) && RowOf(suite, c.source, signal, outcome) == Original(suite, c.source, origin);
    assert ProducedFrom(c, suite, RowOf(suite, c.source, signal, outcome));
  }

  lemma SkipProduces(c: Config, suite: Suite, reason: SkipReason)
    requires suite in c.selected
    ensures Produced(c, SkippedRow(suite, c.source, reason))
  {
    assert Possible(FromSkip(reason)) && SkippedRow(suite, c.source, reason) == Original(suite, c.source, FromSkip(reason));
    assert ProducedFrom(c, suite, SkippedRow(suite, c.source, reason));
  }

  lemma BeginProduced(c: Config, w: World, resume: bool, logs: map<string, LogFile>)
    requires AllProduced(c, w) && w.process.None?
    ensures AllProduced(c, BeginStep(c, w, resume, logs))
  {
    hide Produced;
    if w.checkpoint.Some? && Completed(w.checkpoint.value, {}, ById(c.selected), c.source, logs).Ok? {
      CompletedAll(w.checkpoint.value, {}, ById(c.selected), c.source, logs);
    }
  }

  lemma RenameProduced(c: Config, w: World)
    requires Inv(c, w) && AllProduced(c, w) && Enabled(c, w, Rename)
    ensures AllProduced(c, Step(c, w, Rename))
  {
    var p := w.process.value;
    hide Produced, Shape, Conserved, Awaited;
    assert p.snapshot.value <= p.results;
    forall row | row in p.snapshot.value ensures Produced(c, row) {
      var i :| 0 <= i < |p.snapshot.value| && p.snapshot.value[i] == row;
      assert p.results[i] == row;
    }
  }

  lemma SelectedOnly(c: Config, p: Process)
    requires Shape(c, p)
    ensures forall worker <- p.workers :: worker.Running? ==> worker.suite in c.selected
    ensures forall suite <- p.pending :: suite in c.selected
  {
  }

  lemma StepProduced(c: Config, w: World, e: Event)
    requires Inv(c, w) && AllProduced(c, w)
    ensures AllProduced(c, Step(c, w, e))
  {
    hide Produced, Shape, Conserved, Writes, Awaited, RowOf, SkippedRow, BeginStep;
    if Enabled(c, w, e) {
      if e.Begin? {
        BeginProduced(c, w, e.resume, e.logs);
      } else if e.Rename? {
        RenameProduced(c, w);
      } else if e.Record? {
        var p := w.process.value;
        SelectedOnly(c, p);
        assert p.workers[e.worker] in p.workers;
        RecordProduces(c, p.workers[e.worker].suite, p.signal, e.outcome);
      } else if e.SkipOne? {
        var p := w.process.value;
        SelectedOnly(c, p);
        assert p.pending[p.cursor] in p.pending;
        SkipProduces(c, p.pending[p.cursor], SkipReasonNow(w, p));
      }
    }
  }

  lemma {:induction false} RunProduced(c: Config, w: World, events: seq<Event>)
    requires Valid(c) && Inv(c, w) && AllProduced(c, w)
    ensures AllProduced(c, Run(c, w, events))
    decreases |events|
  {
    hide Inv, AllProduced, Step;
    if events != [] {
      StepKeeps(c, w, events[0]);
      StepProduced(c, w, events[0]);
      RunProduced(c, Step(c, w, events[0]), events[1..]);
    }
  }

  // ---- a produced row with clean evidence satisfies the contract ----

  /** Cleanup, source tree and log of an executed row are as they should be. */
  predicate CleanEvidence(row: Row, revision: string, logs: map<string, LogFile>)
  {
    && row.cleanup.Some? && CleanupComplete(row.cleanup.value)
    && row.sourceTree == Some(SourceTree(true, Some(true), Some(revision)))
    && row.logPath.Some? && row.logSha256.Some?
    && LogAt(logs, row.logPath.value) == Regular(row.logSha256.value)
  }

  lemma OriginalOk(suite: Suite, source: Source, origin: Origin, m: map<string, Suite>, logs: map<string, LogFile>)
    requires Possible(origin) && suite.id in m && m[suite.id] == suite
    requires var row := Original(suite, source, origin);
             row.status == BLOCKED || row.status == SKIPPED || CleanEvidence(row, source.revision, logs)
    ensures ResultOk(Original(suite, source, origin), m, source.revision, logs)
  {
    if origin.FromChild? { hide Sha256; }
  }

  lemma ByIdIs(suites: seq<Suite>, suite: Suite)
    requires Distinct(SuiteIds(suites)) && suite in suites
    ensures suite.id in ById(suites) && ById(suites)[suite.id] == suite
  {
    var i :| 0 <= i < |suites| && suites[i] == suite;
    assert SuiteIds(suites)[i] == suite.id;
    var found := ById(suites)[suite.id];
    var j :| 0 <= j < |suites| && suites[j] == found;
    assert SuiteIds(suites)[j] == suite.id;
  }

  /** The configuration of an audit with the locked options. */
  function LockedConfig(o: Orders, registry: seq<Suite>, revision: string): Config
  {
    Config(Selection(o, registry, LOCKED), Source(revision, LOCKED.allowDirty), LOCKED.failFast, LOCKED.concurrency,
           LOCKED.deadlineMs)
  }

  lemma LockedValid(o: Orders, registry: seq<Suite>, revision: string)
    requires Preorder(o.locale) && Distinct(SuiteIds(registry))
    ensures Valid(LockedConfig(o, registry, revision))
    ensures forall suite :: suite in Selection(o, registry, LOCKED) <==> suite in Expected(registry)
    ensures Distinct(SuiteIds(Expected(registry)))
  {
    var expected := Expected(registry);
    SelectionIsExpected(o, registry);
    ExpectedDistinct(registry);
    SortedIds(o, expected);
    SortMultiset(ByPath(o), expected);
    DistinctCount(SuiteIds(expected));
    var ids := SuiteIds(Sort(ByPath(o), expected));
    forall id | id in ids ensures multiset(ids)[id] == 1 { assert id in multiset(ids) && id in multiset(SuiteIds(expected)); }
    CountDistinct(ids);
  }

  // ---- main result ----

  /** Every finished, uninterrupted audit with the locked options and clean evidence passes the contract, whatever its history. */
  lemma FinishedRunPasses(
      o: Orders, d: Digests, policy: Policy, registry: seq<Suite>, revision: string, events: seq<Event>,
      named: set<string>, report: Report, logs: map<string, LogFile>)
    requires TotalOrder(o.code) && Preorder(o.locale) && Reviewed(d, policy, registry) && Distinct(SuiteIds(registry))
    requires (forall p <- PROFILES :: p in named) && report.sourceRoot == policy.worktree
    requires Run(LockedConfig(o, registry, revision), INITIAL, events).process.Some?
    requires var p := Run(LockedConfig(o, registry, revision), INITIAL, events).process.value;
             && p.phase == Finished && p.signal.None?
             && ReportOf(report, MakeInventory(o, d, RUN_ID, registry, LOCKED, revision), named, p.results, p.signal)
             && forall row <- p.results ::
                  row.status == BLOCKED || row.status == SKIPPED || CleanEvidence(row, revision, logs)
    ensures AuditOk(o, d, policy, registry, MakeInventory(o, d, RUN_ID, registry, LOCKED, revision), report,
                    revision, report.exitCode, logs)
  {
    var c := LockedConfig(o, registry, revision);
    var p := Run(c, INITIAL, events).process.value;
    LockedValid(o, registry, revision);
    FinishedIsPermutation(c, events);
    RunProduced(c, INITIAL, events);
    assert forall row <- p.results :: Produced(c, row);
    hide Run, Expected, Selection, ReportOf, Reviewed, MakeInventory, ResultOk, CleanEvidence, TotalOrder, Preorder,
         AuditOk, ProducedFrom;
    AllProducedOk(c, registry, p.results, logs);
    hide Produced;
    Agreement(o, d, policy, registry, MakeInventory(o, d, RUN_ID, registry, LOCKED, revision), report, named,
              p.results, p.signal, revision, logs);
  }

  lemma AllProducedOk(c: Config, registry: seq<Suite>, results: seq<Row>, logs: map<string, LogFile>)
    requires (forall row <- results :: Produced(c, row)) && Distinct(SuiteIds(Expected(registry)))
    requires forall suite <- c.selected :: suite in Expected(registry)
    requires forall row <- results ::
               row.status == BLOCKED || row.status == SKIPPED || CleanEvidence(row, c.source.revision, logs)
    ensures forall row <- results :: ResultOk(row, ById(Expected(registry)), c.source.revision, logs)
  {
    hide *;
    forall row | row in results ensures ResultOk(row, ById(Expected(registry)), c.source.revision, logs) {
      ProducedOk(c, registry, row, logs);
    }
  }

  lemma ProducedOk(c: Config, registry: seq<Suite>, row: Row, logs: map<string, LogFile>)
    requires Produced(c, row) && Distinct(SuiteIds(Expected(registry)))
    requires forall suite <- c.selected :: suite in Expected(registry)
    requires row.status == BLOCKED || row.status == SKIPPED || CleanEvidence(row, c.source.revision, logs)
    ensures ResultOk(row, ById(Expected(registry)), c.source.revision, logs)
  {
    var suite :| suite in c.selected && ProducedFrom(c, suite, row);
    var origin :| Possible(origin) && row == Original(suite, c.source, origin);
    ByIdIs(Expected(registry), suite);
    hide Expected, ResultOk, Original, CleanEvidence;
    OriginalOk(suite, c.source, origin, ById(Expected(registry)), logs);
  }
}
