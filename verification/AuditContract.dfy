/** The orchestrator's independent check of an audit's inventory and report. */
module AuditContract {
  import opened Common
  import opened Sorting
  import opened AuditRow
  import opened AuditReport

  const RUN_ID: string := "product-audit"

  const PROFILES: seq<string> := ["offline", "database"]

  const ALLOWED_BLOCKERS: seq<string> := ["toolchain:python-pdf-runtime"]

  /** Eight hours. */
  const DEADLINE_MS: nat := 8 * 60 * 60 * 1000

  /** The options that the orchestrator's command line gives. */
  const LOCKED: Options := Options(1, false, DEADLINE_MS, DEADLINE_MS, PROFILES, [], [], ALLOWED_BLOCKERS, false, false)

  /** The reviewed registry: its digest and its profile counts; and the worktree that is to be audited. */
  datatype Policy = Policy(registryHash: string, profileCounts: map<string, nat>, worktree: string)

  /** What the audit contract hands to the summary contract. */
  datatype Contract = Contract(
    sourceRevision: string, registryHash: string, verdict: Verdict, exitCode: nat,
    expectedSuiteCount: nat, statusCounts: map<Status, nat>,
    summaryRequiredFailureCount: nat, failureTotal: nat, timeoutTotal: nat, blockedTotal: nat,
    failurePaths: seq<string>, timeoutPaths: seq<string>, blockedPaths: seq<string>)

  function Expected(registry: seq<Suite>): seq<Suite> { Filter((s: Suite) => s.profile in PROFILES, registry) }

  function ExpectedListed(o: Orders, registry: seq<Suite>): seq<Listed>
  {
    ListAll(o, Sort(ByPath(o), Expected(registry)))
  }

  function ExpectedOptions(o: Orders): Options { LOCKED.(profiles := Sort(o.code, PROFILES)) }

  /** `countValues` of the profiles equals a reviewed count map. */
  ghost predicate ProfileCountsAre(suites: seq<Suite>, counts: map<string, nat>)
  {
    && (forall p :: p in counts <==> ProfileCount(suites, p) > 0)
    && (forall p <- counts :: counts[p] == ProfileCount(suites, p))
  }

  /** The registry is the reviewed one and its selection is active, required and within the deadline. */
  ghost predicate Reviewed(d: Digests, policy: Policy, registry: seq<Suite>)
  {
    && Expected(registry) != []
    && (forall s <- Expected(registry) :: s.state == "ACTIVE" && s.required && s.timeoutMs <= DEADLINE_MS)
    && d.registry(registry) == policy.registryHash
    && ProfileCountsAre(Expected(registry), policy.profileCounts)
  }

  predicate SameMembers(o: Orders, actual: seq<string>, expected: seq<string>)
  {
    |actual| == |expected| && Sort(o.code, actual) == Sort(o.code, expected)
  }

  /** The checks on the two headers and the inventory. */
  ghost predicate HeadersOk(
      o: Orders, d: Digests, registry: seq<Suite>, inventory: Inventory, report: Report, revision: string)
  {
    && inventory.runId == RUN_ID && report.runId == RUN_ID
    && inventory.sourceRevision == revision && report.sourceRevision == revision
    && inventory.registryHash == d.registry(registry) && report.registryHash == d.registry(registry)
    && inventory.inventoryFingerprint == d.inventory(ExpectedListed(o, registry))
    && inventory.optionsFingerprint == d.options(ExpectedOptions(o))
    && report.inventoryFingerprint == inventory.inventoryFingerprint
    && report.optionsFingerprint == inventory.optionsFingerprint
    && SameMembers(o, inventory.options.profiles, PROFILES) && SameMembers(o, report.options.profiles, PROFILES)
    && inventory.options == ExpectedOptions(o) && report.options == Shown(ExpectedOptions(o))
    && inventory.suites == ExpectedListed(o, registry)
  }

  function ListedIds(listed: seq<Listed>): seq<string> { Map((l: Listed) => l.suite.id, listed) }

  /** The checks on identities and totals. */
  ghost predicate IdentitiesOk(o: Orders, registry: seq<Suite>, inventory: Inventory, report: Report)
  {
    var ids := SuiteIds(Expected(registry));
    && SameMembers(o, ListedIds(inventory.suites), ids) && SameMembers(o, Ids(report.results), ids)
    && |set id | id in ListedIds(inventory.suites)| == |ids| && |set id | id in Ids(report.results)| == |ids|
    && report.total == |ids|
    && forall p <- PROFILES :: p in report.counts && report.counts[p] == ProfileCount(Expected(registry), p)
  }

  /** The checks on one result. */
  predicate ResultOk(row: Row, expectedById: map<string, Suite>, revision: string, logs: map<string, LogFile>)
  {
    && row.id in expectedById && Describes(row, expectedById[row.id], revision)
    && (row.status == PASS ==>
          row.exitCode == Some(0) && row.signal.None? && row.cleanup.Some? && !row.cleanup.value.leakDetected)
    && (row.status != BLOCKED && row.status != SKIPPED ==> EvidenceOk(row, revision, logs))
  }

  /** The evidence of a result that was executed. */
  predicate EvidenceOk(row: Row, revision: string, logs: map<string, LogFile>)
  {
    && row.cleanup.Some? && CleanupComplete(row.cleanup.value)
    && row.sourceTree == Some(SourceTree(true, Some(true), Some(revision)))
    && (row.status == TIMEOUT ==> row.timedOut) && (row.status == PASS ==> !row.timedOut)
    && row.logPath.Some? && row.logPath.value != ""
    && row.logSha256.Some? && Sha256(row.logSha256.value)
    && LogAt(logs, row.logPath.value) == Regular(row.logSha256.value)
  }

  ghost predicate ResultsOk(registry: seq<Suite>, results: seq<Row>, revision: string, logs: map<string, LogFile>)
  {
    forall row <- results :: ResultOk(row, ById(Expected(registry)), revision, logs)
  }

  /** The recomputed verdict and counts. */
  predicate TotalsOk(report: Report, runnerExitCode: int)
  {
    && (forall status <- STATUSES ::
          status in report.statusCounts && report.statusCounts[status] == StatusCount(report.results, status))
    && report.verdict == VerdictOf(report.results)
    && report.exitCode == ExitCode(VerdictOf(report.results))
    && runnerExitCode == ExitCode(VerdictOf(report.results))
    && report.requiredFailureCount == |RequiredProblems(report.results)|
    && report.requiredBlockedCount == |RequiredBlocked(report.results)|
    && !report.dryRun
  }

  /** `validateAuditContract` does not throw. */
  ghost predicate AuditOk(
      o: Orders, d: Digests, policy: Policy, registry: seq<Suite>, inventory: Inventory, report: Report,
      revision: string, runnerExitCode: int, logs: map<string, LogFile>)
  {
    && Reviewed(d, policy, registry) && report.sourceRoot == policy.worktree
    && HeadersOk(o, d, registry, inventory, report, revision)
    && IdentitiesOk(o, registry, inventory, report)
    && ResultsOk(registry, report.results, revision, logs) && TotalsOk(report, runnerExitCode)
  }

  function PathsOf(results: seq<Row>, keep: Row -> bool): seq<string>
  {
    Map((r: Row) => r.path, Filter(keep, results))
  }

  predicate Failure(row: Row) { row.status == FAIL || row.status == TIMEOUT }

  predicate IsTimeout(row: Row) { row.status == TIMEOUT }

  predicate IsBlocked(row: Row) { row.status == BLOCKED }

  predicate SummaryFailure(row: Row) { row.required && (Failure(row) || row.status == SKIPPED) }

  /** What it returns. */
  function ContractOf(o: Orders, report: Report, expectedSuiteCount: nat): Contract
  {
    var results := report.results;
    Contract(report.sourceRevision, report.registryHash, report.verdict, report.exitCode,
             expectedSuiteCount, StatusCounts(results),
             |Filter(SummaryFailure, results)|,
             StatusCount(results, FAIL) + StatusCount(results, TIMEOUT),
             StatusCount(results, TIMEOUT), StatusCount(results, BLOCKED),
             Sort(o.code, PathsOf(results, Failure)), Sort(o.code, PathsOf(results, IsTimeout)),
             Sort(o.code, PathsOf(results, IsBlocked)))
  }

  // ---- the program ----

  /** `validateAuditContract`: the contract, or nothing where it throws. */
  method ValidateAuditContract(
      o: Orders, d: Digests, policy: Policy, registry: seq<Suite>, inventory: Inventory, report: Report,
      revision: string, runnerExitCode: int, logs: map<string, LogFile>)
    returns (r: Option<Contract>)
    ensures r.Some? <==> AuditOk(o, d, policy, registry, inventory, report, revision, runnerExitCode, logs)
    ensures r.Some? ==> r.value == ContractOf(o, report, |Expected(registry)|)
  {
    hide HeadersOk, Reviewed, ResultsOk, IdentitiesOk, TotalsOk, Expected, StatusCount, Filter;
    var expected := Expected(registry);
    var reviewed := CheckRegistry(d, policy, registry, expected);
    if !reviewed { return None; }
    if report.sourceRoot != policy.worktree { return None; }
    var headers := CheckHeaders(o, d, registry, inventory, report, revision);
    if !headers { return None; }
    var identities := CheckIdentities(o, registry, expected, inventory, report);
    if !identities { return None; }
    var resultsOk := CheckResults(registry, expected, report.results, revision, logs);
    if !resultsOk { return None; }
    var observed := CountStatuses(report.results);
    if !TotalsOk(report, runnerExitCode) { return None; }
    var results := report.results;
    HeaderValues(o, d, registry, inventory, report, revision);
    EveryStatus();
    r := Some(Contract(
      revision, d.registry(registry), report.verdict, report.exitCode, |expected|, observed, |Filter(SummaryFailure, results)|,
      observed[FAIL] + observed[TIMEOUT], observed[TIMEOUT], observed[BLOCKED],
      Sort(o.code, PathsOf(results, Failure)), Sort(o.code, PathsOf(results, IsTimeout)),
      Sort(o.code, PathsOf(results, IsBlocked))));
  }

  lemma HeaderValues(
      o: Orders, d: Digests, registry: seq<Suite>, inventory: Inventory, report: Report, revision: string)
    requires HeadersOk(o, d, registry, inventory, report, revision)
    ensures report.sourceRevision == revision && report.registryHash == d.registry(registry)
  {
  }

  method CheckHeaders(
      o: Orders, d: Digests, registry: seq<Suite>, inventory: Inventory, report: Report, revision: string)
    returns (ok: bool)
    ensures ok <==> HeadersOk(o, d, registry, inventory, report, revision)
  {
    hide ExpectedListed, ExpectedOptions, SameMembers, Shown;
    if inventory.runId != RUN_ID || report.runId != RUN_ID { return false; }
    if inventory.sourceRevision != revision || report.sourceRevision != revision { return false; }
    var registryHash := d.registry(registry);
    if inventory.registryHash != registryHash || report.registryHash != registryHash { return false; }
    if inventory.inventoryFingerprint != d.inventory(ExpectedListed(o, registry)) { return false; }
    if inventory.optionsFingerprint != d.options(ExpectedOptions(o)) { return false; }
    if report.inventoryFingerprint != inventory.inventoryFingerprint { return false; }
    if report.optionsFingerprint != inventory.optionsFingerprint { return false; }
    if !SameMembers(o, inventory.options.profiles, PROFILES) || !SameMembers(o, report.options.profiles, PROFILES) {
      return false;
    }
    if inventory.options != ExpectedOptions(o) || report.options != Shown(ExpectedOptions(o)) { return false; }
    ok := inventory.suites == ExpectedListed(o, registry);
  }

  method CheckIdentities(
      o: Orders, registry: seq<Suite>, expected: seq<Suite>, inventory: Inventory, report: Report)
    returns (ok: bool)
    requires expected == Expected(registry)
    ensures ok <==> IdentitiesOk(o, registry, inventory, report)
  {
    hide Expected, SameMembers, ProfileCount;
    var ids, inventoryIds, resultIds := SuiteIds(expected), ListedIds(inventory.suites), Ids(report.results);
    if !SameMembers(o, inventoryIds, ids) || !SameMembers(o, resultIds, ids) { return false; }
    if |set id | id in inventoryIds| != |ids| || |set id | id in resultIds| != |ids| { return false; }
    ok := report.total == |ids|
          && forall p <- PROFILES :: p in report.counts && report.counts[p] == ProfileCount(expected, p);
  }

  /** The loop over the results. */
  method CheckResults(
      registry: seq<Suite>, expected: seq<Suite>, results: seq<Row>, revision: string, logs: map<string, LogFile>)
    returns (ok: bool)
    requires expected == Expected(registry)
    ensures ok <==> ResultsOk(registry, results, revision, logs)
  {
    hide Expected, ResultOk;
    var expectedById := ById(expected);
    for i := 0 to |results|
      invariant forall row <- results[..i] :: ResultOk(row, expectedById, revision, logs)
    {
      if !ResultOk(results[i], expectedById, revision, logs) { return false; }
      assert results[..i + 1] == results[..i] + [results[i]];
    }
    assert results[..|results|] == results;
    ok := true;
  }

  /** The checks on the registry before any evidence is read. */
  method CheckRegistry(d: Digests, policy: Policy, registry: seq<Suite>, expected: seq<Suite>) returns (ok: bool)
    requires expected == Expected(registry)
    ensures ok <==> Reviewed(d, policy, registry)
  {
    hide Expected;
    if expected == [] { return false; }
    if exists s <- expected :: s.state != "ACTIVE" || !s.required || s.timeoutMs > DEADLINE_MS { return false; }
    if d.registry(registry) != policy.registryHash { return false; }
    var counts := CountProfiles(expected, {});
    SameCounts(expected, counts, policy.profileCounts);
    ok := counts == policy.profileCounts;
  }

  lemma SameCounts(suites: seq<Suite>, a: map<string, nat>, b: map<string, nat>)
    requires ProfileCountsAre(suites, a)
    ensures ProfileCountsAre(suites, b) <==> a == b
  {
    hide ProfileCount;
    if ProfileCountsAre(suites, b) { assert a.Keys == b.Keys; }
  }

  // ---- producer and consumer agree ----

  lemma ByPathPreorder(o: Orders)
    requires Preorder(o.locale)
    ensures Preorder(ByPath(o))
  {
    var order := ByPath(o);
    forall a, b, c
      ensures (order(a, b) || order(b, a)) && (order(a, b) && order(b, c) ==> order(a, c))
    {
      assert o.locale(a.path, b.path) || o.locale(b.path, a.path);
      assert o.locale(a.path, b.path) && o.locale(b.path, c.path) ==> o.locale(a.path, c.path);
    }
  }

  /** The producer sorts and then filters; the consumer filters and then sorts. */
  lemma SelectionIsExpected(o: Orders, registry: seq<Suite>)
    requires Preorder(o.locale)
    ensures Selection(o, registry, LOCKED) == Sort(ByPath(o), Expected(registry))
  {
    ByPathPreorder(o);
    SortFilter(ByPath(o), (s: Suite) => Selected(LOCKED, s), registry);
    FilterSame((s: Suite) => Selected(LOCKED, s), (s: Suite) => s.profile in PROFILES, registry);
  }

  lemma OptionsAreExpected(o: Orders)
    ensures Snapshot(o, LOCKED) == ExpectedOptions(o)
  {
    assert Sort(o.code, ALLOWED_BLOCKERS) == ALLOWED_BLOCKERS;
  }

  lemma MembersOfSorted(o: Orders, members: seq<string>, others: seq<string>)
    requires TotalOrder(o.code) && multiset(members) == multiset(others)
    ensures SameMembers(o, members, others)
  {
    SortCanonical(o.code, members, others);
    assert |multiset(members)| == |members| && |multiset(others)| == |others|;
  }

  lemma ListedBack(o: Orders, suites: seq<Suite>)
    ensures Suites(ListAll(o, suites)) == suites && ListedIds(ListAll(o, suites)) == SuiteIds(suites)
  {
    hide Blockers;
  }

  lemma SortedIds(o: Orders, suites: seq<Suite>)
    ensures multiset(SuiteIds(Sort(ByPath(o), suites))) == multiset(SuiteIds(suites))
  {
    SortMap(ByPath(o), (s: Suite) => s.id, suites);
  }

  lemma SortedProfiles(o: Orders, suites: seq<Suite>, p: string)
    requires Preorder(o.locale)
    ensures ProfileCount(Sort(ByPath(o), suites), p) == ProfileCount(suites, p)
  {
    ByPathPreorder(o);
    var keep := (s: Suite) => s.profile == p;
    SortFilter(ByPath(o), keep, suites);
    SortMultiset(ByPath(o), Filter(keep, suites));
  }

  lemma ExpectedDistinct(registry: seq<Suite>)
    requires Distinct(SuiteIds(registry))
    ensures Distinct(SuiteIds(Expected(registry)))
  {
    DistinctFilter((s: Suite) => s.profile in PROFILES, registry);
  }

  lemma {:induction false} DistinctFilter(p: Suite -> bool, suites: seq<Suite>)
    requires Distinct(SuiteIds(suites))
    ensures Distinct(SuiteIds(Filter(p, suites)))
    ensures forall id <- SuiteIds(Filter(p, suites)) :: id in SuiteIds(suites)
  {
    if suites != [] {
      var kept := Filter(p, suites[1..]);
      FirstIdOnce(suites);
      DistinctFilter(p, suites[1..]);
      hide SuiteIds;
      if p(suites[0]) { IdsWithFirst(suites[0], kept); }
    }
  }

  lemma FirstIdOnce(suites: seq<Suite>)
    requires suites != [] && Distinct(SuiteIds(suites))
    ensures Distinct(SuiteIds(suites[1..])) && suites[0].id !in SuiteIds(suites[1..])
    ensures forall id :: id in SuiteIds(suites) <==> id == suites[0].id || id in SuiteIds(suites[1..])
  {
    var ids, rest := SuiteIds(suites), SuiteIds(suites[1..]);
    assert ids == [suites[0].id] + rest;
    assert forall i :: 0 <= i < |rest| ==> rest[i] == ids[i + 1] != ids[0];
  }

  lemma IdsWithFirst(first: Suite, rest: seq<Suite>)
    requires Distinct(SuiteIds(rest)) && first.id !in SuiteIds(rest)
    ensures Distinct(SuiteIds([first] + rest))
    ensures forall id :: id in SuiteIds([first] + rest) <==> id == first.id || id in SuiteIds(rest)
  {
    assert SuiteIds([first] + rest) == [first.id] + SuiteIds(rest);
  }

  lemma SetOfPermutation(a: seq<string>, b: seq<string>)
    requires multiset(a) == multiset(b) && Distinct(b)
    ensures |set x | x in a| == |b|
  {
    DistinctSet(b);
    assert forall x :: x in a <==> x in multiset(a);
    assert forall x :: x in b <==> x in multiset(b);
    assert (set x | x in a) == (set x | x in b);
  }

  /** The evidence of one run with the locked options. */
  ghost predicate LockedRun(
      o: Orders, d: Digests, policy: Policy, registry: seq<Suite>, inventory: Inventory, report: Report,
      named: set<string>, results: seq<Row>, signal: Option<string>, revision: string)
  {
    && TotalOrder(o.code) && Preorder(o.locale)
    && Reviewed(d, policy, registry) && Distinct(SuiteIds(registry))
    && inventory == MakeInventory(o, d, RUN_ID, registry, LOCKED, revision) && report.sourceRoot == policy.worktree
    && (forall p <- PROFILES :: p in named) && ReportOf(report, inventory, named, results, signal)
    && multiset(Ids(results)) == multiset(SuiteIds(Selection(o, registry, LOCKED)))
  }

  lemma InventoryIsExpected(o: Orders, d: Digests, registry: seq<Suite>, revision: string)
    requires Preorder(o.locale)
    ensures var inventory := MakeInventory(o, d, RUN_ID, registry, LOCKED, revision);
            && inventory.suites == ExpectedListed(o, registry) && inventory.options == ExpectedOptions(o)
            && inventory == Inventory(RUN_ID, revision, d.inventory(ExpectedListed(o, registry)),
                                      d.options(ExpectedOptions(o)), d.registry(registry),
                                      ExpectedOptions(o), ExpectedListed(o, registry))
  {
    SelectionIsExpected(o, registry);
    OptionsAreExpected(o);
    hide Selection, Snapshot, ExpectedOptions, Expected, ByPath;
  }

  lemma HeadersAgree(
      o: Orders, d: Digests, policy: Policy, registry: seq<Suite>, inventory: Inventory, report: Report,
      named: set<string>, results: seq<Row>, signal: Option<string>, revision: string)
    requires LockedRun(o, d, policy, registry, inventory, report, named, results, signal, revision)
    ensures HeadersOk(o, d, registry, inventory, report, revision)
  {
    InventoryIsExpected(o, d, registry, revision);
    SortMultiset(o.code, PROFILES);
    MembersOfSorted(o, Sort(o.code, PROFILES), PROFILES);
    hide Reviewed, MakeInventory, ExpectedListed, Sort, SameMembers;
  }

  lemma IdentitiesAgree(
      o: Orders, d: Digests, policy: Policy, registry: seq<Suite>, inventory: Inventory, report: Report,
      named: set<string>, results: seq<Row>, signal: Option<string>, revision: string)
    requires LockedRun(o, d, policy, registry, inventory, report, named, results, signal, revision)
    ensures IdentitiesOk(o, registry, inventory, report)
  {
    var expected := Expected(registry);
    var ids := SuiteIds(expected);
    InventoryIsExpected(o, d, registry, revision);
    SelectionIsExpected(o, registry);
    ListedBack(o, Sort(ByPath(o), expected));
    SortedIds(o, expected);
    ExpectedDistinct(registry);
    hide Reviewed, MakeInventory, Sort, SameMembers, Selection, SuiteIds, Expected, ListAll, ProfileCount, StatusCounts;
    MembersOfSorted(o, ListedIds(inventory.suites), ids);
    MembersOfSorted(o, Ids(results), ids);
    SetOfPermutation(ListedIds(inventory.suites), ids);
    SetOfPermutation(Ids(results), ids);
    forall p | p in PROFILES ensures ProfileCount(Suites(inventory.suites), p) == ProfileCount(expected, p) {
      SortedProfiles(o, expected, p);
    }
    assert |multiset(ListedIds(inventory.suites))| == |ids|;
  }

  /** For a run with the locked options and complete evidence the contract holds exactly unless a signal overrode a better verdict. */
  lemma Agreement(
      o: Orders, d: Digests, policy: Policy, registry: seq<Suite>, inventory: Inventory, report: Report,
      named: set<string>, results: seq<Row>, signal: Option<string>, revision: string, logs: map<string, LogFile>)
    requires LockedRun(o, d, policy, registry, inventory, report, named, results, signal, revision)
    requires ResultsOk(registry, results, revision, logs)
    ensures AuditOk(o, d, policy, registry, inventory, report, revision, report.exitCode, logs) <==>
            signal.None? || VerdictOf(results) == Failed
  {
    HeadersAgree(o, d, policy, registry, inventory, report, named, results, signal, revision);
    IdentitiesAgree(o, d, policy, registry, inventory, report, named, results, signal, revision);
    hide *;
    LockedReport(o, d, policy, registry, inventory, report, named, results, signal, revision);
    TotalsAgree(report, inventory, named, results, signal);
    AuditOkMeans(o, d, policy, registry, inventory, report, revision, report.exitCode, logs);
  }

  lemma LockedReport(
      o: Orders, d: Digests, policy: Policy, registry: seq<Suite>, inventory: Inventory, report: Report,
      named: set<string>, results: seq<Row>, signal: Option<string>, revision: string)
    requires LockedRun(o, d, policy, registry, inventory, report, named, results, signal, revision)
    ensures Reviewed(d, policy, registry) && report.sourceRoot == policy.worktree && report.results == results
    ensures ReportOf(report, inventory, named, results, signal)
  {
  }

  /** An interruption makes the totals agree with the results only where these fail anyway. */
  lemma TotalsAgree(
      report: Report, inventory: Inventory, named: set<string>, results: seq<Row>, signal: Option<string>)
    requires ReportOf(report, inventory, named, results, signal)
    ensures TotalsOk(report, report.exitCode) <==> signal.None? || VerdictOf(results) == Failed
  {
    EveryStatus();
    hide VerdictOf, StatusCount, RequiredProblems, RequiredBlocked, Suites, ProfileCount, Shown;
  }

  lemma AuditOkMeans(
      o: Orders, d: Digests, policy: Policy, registry: seq<Suite>, inventory: Inventory, report: Report,
      revision: string, runnerExitCode: int, logs: map<string, LogFile>)
    ensures AuditOk(o, d, policy, registry, inventory, report, revision, runnerExitCode, logs) <==>
            && Reviewed(d, policy, registry) && report.sourceRoot == policy.worktree
            && HeadersOk(o, d, registry, inventory, report, revision) && IdentitiesOk(o, registry, inventory, report)
            && ResultsOk(registry, report.results, revision, logs) && TotalsOk(report, runnerExitCode)
  {
  }
}
