/** What the orchestrator may conclude from an audit that it accepted: the converse of the producer's theorem. */
module AuditAccepted {
  import opened Common
  import opened Sorting
  import opened AuditRow
  import opened AuditReport
  import opened AuditContract
  import AuditEvidence

  predicate Executed(row: Row) { row.status == PASS || row.status == FAIL || row.status == TIMEOUT }

  /** Cleanup, source tree and log of an executed row are there, and the log on disk is the one that was digested. */
  predicate Supported(row: Row, revision: string, logs: map<string, LogFile>)
  {
    && row.cleanup.Some? && row.cleanup.value.checked && row.cleanup.value.terminated == Some(true)
    && row.sourceTree.Some? && row.sourceTree.value.checked
    && row.sourceTree.value.clean == Some(true) && row.sourceTree.value.head == Some(revision)
    && row.logPath.Some? && row.logPath.value != "" && row.logSha256.Some? && Sha256(row.logSha256.value)
    && row.logPath.value in logs && logs[row.logPath.value] == Regular(row.logSha256.value)
  }

  /** The child of a passed row left by itself, with zero and without leaving a process behind. */
  predicate CleanExit(row: Row)
  {
    row.exitCode == Some(0) && row.signal.None? && !row.timedOut && row.cleanup.Some? && !row.cleanup.value.leakDetected
  }

  lemma SupportedRow(row: Row, m: map<string, Suite>, revision: string, logs: map<string, LogFile>)
    ensures ResultOk(row, m, revision, logs) <==>
            && row.id in m && Describes(row, m[row.id], revision)
            && (Executed(row) ==> Supported(row, revision, logs))
            && (row.status == PASS ==> CleanExit(row)) && (row.status == TIMEOUT ==> row.timedOut)
  {
    hide Sha256, Describes;
  }

  /** Every row of an accepted report belongs to a reviewed suite, and what was executed is supported by evidence. */
  lemma AcceptedRows(
      o: Orders, d: Digests, policy: Policy, registry: seq<Suite>, inventory: Inventory, report: Report,
      revision: string, runnerExitCode: int, logs: map<string, LogFile>)
    requires AuditOk(o, d, policy, registry, inventory, report, revision, runnerExitCode, logs)
    ensures forall row <- report.results ::
              && (exists suite <- Expected(registry) ::
                    && row.id == suite.id && row.path == suite.path && row.profile == suite.profile
                    && row.command == suite.argv && row.required == suite.required && row.sourceRevision == revision)
              && (Executed(row) ==> Supported(row, revision, logs))
              && (row.status == PASS ==> CleanExit(row)) && (row.status == TIMEOUT ==> row.timedOut)
  {
    var m := ById(Expected(registry));
    hide Expected, Supported, CleanExit, ResultOk, Executed, HeadersOk, Reviewed, IdentitiesOk, TotalsOk;
    forall row | row in report.results
      ensures && (exists suite <- Expected(registry) :: Describes(row, suite, revision))
              && (Executed(row) ==> Supported(row, revision, logs))
              && (row.status == PASS ==> CleanExit(row)) && (row.status == TIMEOUT ==> row.timedOut)
    {
      assert ResultOk(row, m, revision, logs);
      SupportedRow(row, m, revision, logs);
      assert m[row.id] in Expected(registry);
    }
  }

  /** An accepted report is refused as soon as the log of one executed row has another content, or is gone. */
  lemma TamperedLogRefused(
      o: Orders, d: Digests, policy: Policy, registry: seq<Suite>, inventory: Inventory, report: Report,
      revision: string, runnerExitCode: int, logs: map<string, LogFile>, row: Row, found: LogFile)
    requires AuditOk(o, d, policy, registry, inventory, report, revision, runnerExitCode, logs)
    requires row in report.results && Executed(row) && found != Regular(row.logSha256.value)
    ensures row.logPath.Some?
    ensures !AuditOk(o, d, policy, registry, inventory, report, revision, runnerExitCode, logs[row.logPath.value := found])
  {
    hide AuditOk;
    AcceptedRows(o, d, policy, registry, inventory, report, revision, runnerExitCode, logs);
    var changed := logs[row.logPath.value := found];
    assert !Supported(row, revision, changed);
    if AuditOk(o, d, policy, registry, inventory, report, revision, runnerExitCode, changed) {
      AcceptedRows(o, d, policy, registry, inventory, report, revision, runnerExitCode, changed);
    }
  }

  /** The registry behind an accepted report is the reviewed one, and every suite of the selection is active and required. */
  lemma AcceptedRegistry(
      o: Orders, d: Digests, policy: Policy, registry: seq<Suite>, inventory: Inventory, report: Report,
      revision: string, runnerExitCode: int, logs: map<string, LogFile>)
    requires AuditOk(o, d, policy, registry, inventory, report, revision, runnerExitCode, logs)
    ensures d.registry(registry) == policy.registryHash && report.sourceRoot == policy.worktree
    ensures exists suite <- registry :: suite.profile in PROFILES
    ensures forall suite <- registry | suite.profile in PROFILES ::
              suite.state == "ACTIVE" && suite.required && suite.timeoutMs <= 8 * 60 * 60 * 1000
              && suite.profile in policy.profileCounts
    ensures forall p <- policy.profileCounts ::
              p in PROFILES && policy.profileCounts[p] == ProfileCount(Expected(registry), p)
  {
    hide HeadersOk, IdentitiesOk, ResultsOk, TotalsOk;
    var expected := Expected(registry);
    assert expected[0] in expected;
    forall suite | suite in expected ensures suite.profile in policy.profileCounts {
      assert suite in Filter((s: Suite) => s.profile == suite.profile, expected);
    }
    forall p | p in policy.profileCounts ensures p in PROFILES {
      var found := Filter((s: Suite) => s.profile == p, expected);
      assert found[0] in found;
    }
  }

  /** The inventory is the one that a locked run makes, and the report carries its fingerprints and options. */
  lemma AcceptedInventory(
      o: Orders, d: Digests, policy: Policy, registry: seq<Suite>, inventory: Inventory, report: Report,
      revision: string, runnerExitCode: int, logs: map<string, LogFile>)
    requires Preorder(o.locale)
    requires AuditOk(o, d, policy, registry, inventory, report, revision, runnerExitCode, logs)
    ensures inventory == MakeInventory(o, d, RUN_ID, registry, LOCKED, revision)
    ensures report.runId == RUN_ID && report.sourceRevision == revision && !report.dryRun
    ensures report.inventoryFingerprint == inventory.inventoryFingerprint
    ensures report.optionsFingerprint == inventory.optionsFingerprint && report.registryHash == inventory.registryHash
    ensures report.options == Shown(inventory.options)
  {
    InventoryIsExpected(o, d, registry, revision);
    hide Reviewed, IdentitiesOk, ResultsOk, ExpectedListed, ExpectedOptions, SameMembers, Shown, MakeInventory;
  }

  /** The results of an accepted report are the reviewed selection, each suite once. */
  lemma AcceptedIsPermutation(
      o: Orders, d: Digests, policy: Policy, registry: seq<Suite>, inventory: Inventory, report: Report,
      revision: string, runnerExitCode: int, logs: map<string, LogFile>)
    requires TotalOrder(o.code)
    requires AuditOk(o, d, policy, registry, inventory, report, revision, runnerExitCode, logs)
    ensures multiset(Ids(report.results)) == multiset(SuiteIds(Expected(registry)))
    ensures Distinct(SuiteIds(Expected(registry))) && report.total == |report.results|
    ensures forall p <- PROFILES :: p in report.counts && report.counts[p] == ProfileCount(Expected(registry), p)
  {
    var ids := SuiteIds(Expected(registry));
    hide Reviewed, HeadersOk, ResultsOk, TotalsOk, Expected, ProfileCount, Sort, Ids, SuiteIds;
    assert SameMembers(o, Ids(report.results), ids);
    var actual := Ids(report.results);
    SortCanonical(o.code, actual, ids);
    FullSetDistinct(actual);
    DistinctCount(actual);
    forall id | id in ids ensures multiset(ids)[id] == 1 { assert id in multiset(ids) && id in multiset(actual); }
    CountDistinct(ids);
  }

  /** A list with as many values as places repeats none. */
  lemma {:induction false} FullSetDistinct(s: seq<string>)
    requires |set x | x in s| == |s|
    ensures Distinct(s)
  {
    if s != [] {
      var front, last := s[..|s| - 1], s[|s| - 1];
      var all, fewer := set x | x in s, set x | x in front;
      assert s == front + [last];
      assert all == fewer + {last};
      SetBound(front);
      assert last !in fewer;
      FullSetDistinct(front);
    }
  }

  lemma {:induction false} SetBound(s: seq<string>)
    ensures |set x | x in s| <= |s|
  {
    if s != [] {
      var front, last := s[..|s| - 1], s[|s| - 1];
      assert s == front + [last];
      assert (set x | x in s) == (set x | x in front) + {last};
      SetBound(front);
    }
  }

  /** Verdict, exit codes and counts of an accepted report are those of its rows. */
  lemma AcceptedTotals(
      o: Orders, d: Digests, policy: Policy, registry: seq<Suite>, inventory: Inventory, report: Report,
      revision: string, runnerExitCode: int, logs: map<string, LogFile>)
    requires AuditOk(o, d, policy, registry, inventory, report, revision, runnerExitCode, logs)
    ensures report.verdict == Passed <==> forall r <- report.results :: r.required ==> r.status == PASS
    ensures report.verdict == Failed <==> exists r <- report.results :: r.required && r.status != PASS && r.status != BLOCKED
    ensures report.verdict == Passed || report.verdict == Failed || report.verdict == Blocked
    ensures runnerExitCode == report.exitCode ==
            (if report.verdict == Passed then 0 else if report.verdict == Blocked then 2 else 1)
    ensures forall status: Status ::
              status in report.statusCounts
              && report.statusCounts[status] == |Filter((r: Row) => r.status == status, report.results)|
    ensures report.requiredFailureCount == |Filter((r: Row) => r.required && r.status != PASS, report.results)|
    ensures report.requiredBlockedCount == |Filter((r: Row) => r.required && r.status == BLOCKED, report.results)|
  {
    VerdictMeans(report.results);
    EveryStatus();
    var results := report.results;
    hide Reviewed, HeadersOk, IdentitiesOk, ResultsOk, VerdictOf;
    FilterSame(Bad, (r: Row) => r.required && r.status != PASS, results);
    BlockedTwice(results);
  }

  lemma {:induction false} BlockedTwice(results: seq<Row>)
    ensures RequiredBlocked(results) == Filter((r: Row) => r.required && r.status == BLOCKED, results)
  {
    if results != [] { BlockedTwice(results[1..]); }
  }

  /** The figures that the contract hands on, in terms of the rows. */
  lemma ContractMeans(o: Orders, report: Report, expectedSuiteCount: nat)
    ensures var c, results := ContractOf(o, report, expectedSuiteCount), report.results;
            && c.sourceRevision == report.sourceRevision && c.registryHash == report.registryHash
            && c.verdict == report.verdict && c.exitCode == report.exitCode
            && c.expectedSuiteCount == expectedSuiteCount
            && (forall status: Status ::
                  status in c.statusCounts && c.statusCounts[status] == |Filter((r: Row) => r.status == status, results)|)
            && c.summaryRequiredFailureCount ==
               |Filter((r: Row) => r.required && (r.status == FAIL || r.status == TIMEOUT || r.status == SKIPPED), results)|
            && c.failureTotal == |Filter((r: Row) => r.status == FAIL || r.status == TIMEOUT, results)|
            && c.timeoutTotal == |Filter((r: Row) => r.status == TIMEOUT, results)|
            && c.blockedTotal == |Filter((r: Row) => r.status == BLOCKED, results)|
            && multiset(c.failurePaths) ==
               multiset(Map((r: Row) => r.path, Filter((r: Row) => r.status == FAIL || r.status == TIMEOUT, results)))
            && multiset(c.timeoutPaths) ==
               multiset(Map((r: Row) => r.path, Filter((r: Row) => r.status == TIMEOUT, results)))
            && multiset(c.blockedPaths) ==
               multiset(Map((r: Row) => r.path, Filter((r: Row) => r.status == BLOCKED, results)))
  {
    var results := report.results;
    EveryStatus();
    FilterSame(SummaryFailure, (r: Row) => r.required && (r.status == FAIL || r.status == TIMEOUT || r.status == SKIPPED), results);
    FilterSame(Failure, (r: Row) => r.status == FAIL || r.status == TIMEOUT, results);
    FilterSame(IsTimeout, (r: Row) => r.status == TIMEOUT, results);
    FilterSame(IsBlocked, (r: Row) => r.status == BLOCKED, results);
    TwoCounts(results);
    SortMultiset(o.code, PathsOf(results, Failure));
    SortMultiset(o.code, PathsOf(results, IsTimeout));
    SortMultiset(o.code, PathsOf(results, IsBlocked));
    hide Sort, Filter, SummaryFailure, Failure, IsTimeout, IsBlocked;
  }

  lemma {:induction false} TwoCounts(results: seq<Row>)
    ensures |Filter((r: Row) => r.status == FAIL || r.status == TIMEOUT, results)| ==
            StatusCount(results, FAIL) + StatusCount(results, TIMEOUT)
  {
    if results != [] { TwoCounts(results[1..]); }
  }
}
