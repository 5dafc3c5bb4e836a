/** The inventory and the report that an audit writes: the producer side of the evidence contract. */
module AuditReport {
  import opened Common
  import opened Sorting
  import opened AuditRow

  /** Two orders of texts: by code units, as `sort()` has it, and by `localeCompare`. */
  datatype Orders = Orders(code: (string, string) -> bool, locale: (string, string) -> bool)

  /** Digests are functions of what they digest; nothing else about them matters here. */
  datatype Digests = Digests(
    inventory: seq<Listed> -> string, options: Options -> string, registry: seq<Suite> -> string)

  /** A suite as the inventory lists it. */
  datatype Listed = Listed(suite: Suite, blockers: seq<string>)

  datatype Options = Options(
    concurrency: nat, failFast: bool, timeoutMs: nat, deadlineMs: nat,
    profiles: seq<string>, ids: seq<string>, exclude: seq<string>, allowBlockers: seq<string>,
    noBlock: bool, allowDirty: bool)

  /** The options as a report shows them: without `allowDirty`. */
  datatype ReportOptions = ReportOptions(
    concurrency: nat, failFast: bool, timeoutMs: nat, deadlineMs: nat,
    profiles: seq<string>, ids: seq<string>, exclude: seq<string>, allowBlockers: seq<string>, noBlock: bool)

  datatype Inventory = Inventory(
    runId: string, sourceRevision: string, inventoryFingerprint: string, optionsFingerprint: string,
    registryHash: string, options: Options, suites: seq<Listed>)

  datatype Verdict = Passed | Failed | Blocked | DryRun

  datatype Report = Report(
    runId: string, sourceRevision: string, dryRun: bool, options: ReportOptions, sourceRoot: string,
    inventoryFingerprint: string, optionsFingerprint: string, registryHash: string,
    interruptionSignal: Option<string>, total: nat, counts: map<string, nat>,
    statusCounts: map<Status, nat>, verdict: Verdict, exitCode: nat,
    requiredFailureCount: nat, requiredBlockedCount: nat, results: seq<Row>)

  const STATUSES: set<Status> := {PASS, FAIL, TIMEOUT, BLOCKED, SKIPPED}

  // ---- the inventory ----

  function Lower(s: string): string
  {
    Map((c: char) => if 'A' <= c <= 'Z' then ((c as int) + 32) as char else c, s)
  }

  function Toolchain(name: string): string { "toolchain:" + name }

  function Only(holds: bool, blocker: string): seq<string> { if holds then [blocker] else [] }

  function Conditions(suite: Suite): seq<string>
  {
    var r := suite.requirements;
    Only(suite.state != "ACTIVE", "state-" + Lower(suite.state)) + Only(r.server, "server")
    + Only(r.ollama, "ollama") + Only(r.gpu, "gpu") + Only(r.modelFixture, "model-fixture")
    + Only(r.externalNetwork, "external-network")
  }

  /** What a suite needs, in the order in which it is noticed. */
  function Needs(suite: Suite): seq<string>
  {
    Conditions(suite) + Map(Toolchain, suite.requirements.toolchain)
  }

  /** `blockersFor`, which the orchestrator repeats as `registryBlockersFor`. */
  function Blockers(o: Orders, suite: Suite): seq<string> { Sort(o.code, Unique(Needs(suite))) }

  lemma AddUnique(s: seq<string>, x: string)
    ensures Unique(s + [x]) == if x in Unique(s) then Unique(s) else Unique(s) + [x]
  {
    assert (s + [x])[..|s|] == s;
  }

  /** One guarded `Set.prototype.add`: afterwards the set is that of one more noticed need. */
  method Add(blockers: seq<string>, holds: bool, x: string, ghost noticed: seq<string>) returns (more: seq<string>)
    requires blockers == Unique(noticed)
    ensures more == Unique(noticed + Only(holds, x))
  {
    AddUnique(noticed, x);
    assert noticed + [] == noticed;
    more := if !holds || x in blockers then blockers else blockers + [x];
  }

  method ConditionBlockers(suite: Suite) returns (blockers: seq<string>)
    ensures blockers == Unique(Conditions(suite))
  {
    assert Unique<string>([]) == [];
    hide Unique, Only, Lower;
    var r := suite.requirements;
    ghost var first := Only(suite.state != "ACTIVE", "state-" + Lower(suite.state));
    assert [] + first == first;
    blockers := Add([], suite.state != "ACTIVE", "state-" + Lower(suite.state), []);
    ghost var noticed := first;
    blockers := Add(blockers, r.server, "server", noticed);
    noticed := noticed + Only(r.server, "server");
    blockers := Add(blockers, r.ollama, "ollama", noticed);
    noticed := noticed + Only(r.ollama, "ollama");
    blockers := Add(blockers, r.gpu, "gpu", noticed);
    noticed := noticed + Only(r.gpu, "gpu");
    blockers := Add(blockers, r.modelFixture, "model-fixture", noticed);
    noticed := noticed + Only(r.modelFixture, "model-fixture");
    blockers := Add(blockers, r.externalNetwork, "external-network", noticed);
  }

  lemma OneMoreTool(noticed: seq<string>, toolchain: seq<string>, i: nat)
    requires i < |toolchain|
    ensures noticed + Map(Toolchain, toolchain[..i]) + Only(true, Toolchain(toolchain[i]))
         == noticed + Map(Toolchain, toolchain[..i + 1])
  {
  }

  /** The producer's and the consumer's function: each need is added to a set, and the set is sorted. */
  method BlockersFor(o: Orders, suite: Suite) returns (blockers: seq<string>)
    ensures blockers == Blockers(o, suite)
  {
    var tools := suite.requirements.toolchain;
    blockers := ConditionBlockers(suite);
    hide Unique, Conditions, Only, Toolchain, Sort;
    assert Conditions(suite) + Map(Toolchain, tools[..0]) == Conditions(suite);
    for i := 0 to |tools|
      invariant blockers == Unique(Conditions(suite) + Map(Toolchain, tools[..i]))
    {
      blockers := Add(blockers, true, Toolchain(tools[i]), Conditions(suite) + Map(Toolchain, tools[..i]));
      OneMoreTool(Conditions(suite), tools, i);
    }
    assert tools[..|tools|] == tools;
    blockers := Sort(o.code, blockers);
  }

  /** Each need of a suite is listed once, in order, under its own name, and nothing else is. */
  lemma BlockersExactly(o: Orders, suite: Suite, b: string)
    requires Preorder(o.code)
    ensures Distinct(Blockers(o, suite)) && Sorted(o.code, Blockers(o, suite))
    ensures b in Blockers(o, suite) <==>
              || (suite.state != "ACTIVE" && b == "state-" + Lower(suite.state))
              || (suite.requirements.server && b == "server") || (suite.requirements.ollama && b == "ollama")
              || (suite.requirements.gpu && b == "gpu") || (suite.requirements.modelFixture && b == "model-fixture")
              || (suite.requirements.externalNetwork && b == "external-network")
              || exists tool <- suite.requirements.toolchain :: b == "toolchain:" + tool
  {
    hide Blockers, Conditions, Lower;
    BlockersAreNeeds(o, suite);
    ConditionNeeds(suite, b);
    ToolNeeds(suite.requirements.toolchain, b);
  }

  lemma ToolNeeds(tools: seq<string>, b: string)
    ensures b in Map(Toolchain, tools) <==> exists tool <- tools :: b == "toolchain:" + tool
  {
    var names := Map(Toolchain, tools);
    if tool :| tool in tools && b == "toolchain:" + tool {
      var i :| 0 <= i < |tools| && tools[i] == tool;
      assert names[i] == b;
    }
  }

  lemma ConditionNeeds(suite: Suite, b: string)
    ensures b in Conditions(suite) <==>
              || (suite.state != "ACTIVE" && b == "state-" + Lower(suite.state))
              || (suite.requirements.server && b == "server") || (suite.requirements.ollama && b == "ollama")
              || (suite.requirements.gpu && b == "gpu") || (suite.requirements.modelFixture && b == "model-fixture")
              || (suite.requirements.externalNetwork && b == "external-network")
  {
    hide Lower;
  }

  lemma BlockersAreNeeds(o: Orders, suite: Suite)
    requires Preorder(o.code)
    ensures Distinct(Blockers(o, suite)) && Sorted(o.code, Blockers(o, suite))
    ensures forall b :: b in Blockers(o, suite) <==> b in Conditions(suite) || b in Map(Toolchain, suite.requirements.toolchain)
  {
    hide Unique, Sort, Conditions;
    var needs := Unique(Needs(suite));
    UniqueOf(Needs(suite));
    SortSorted(o.code, needs);
    SortMultiset(o.code, needs);
    DistinctCount(needs);
    CountDistinct(Sort(o.code, needs));
  }

  function ByPath(o: Orders): (Suite, Suite) -> bool { (a: Suite, b: Suite) => o.locale(a.path, b.path) }

  function List(o: Orders, suite: Suite): Listed { Listed(suite, Blockers(o, suite)) }

  /** `filterSuites`. */
  predicate Selected(opts: Options, suite: Suite)
  {
    && (opts.ids == [] || suite.id in opts.ids)
    && (opts.profiles == [] || suite.profile in opts.profiles)
    && suite.profile !in opts.exclude
  }

  /** `discoverInventory` and then `filterSuites`: sort everything, keep the selection. */
  function Selection(o: Orders, registry: seq<Suite>, opts: Options): seq<Suite>
  {
    Filter((s: Suite) => Selected(opts, s), Sort(ByPath(o), registry))
  }

  /**
   A registry suite is selected exactly when it is among the asked ids, if any, and profiles, if any, and not
   of an excluded profile; it is selected as often as it is registered, and the selection is ordered by path.
   */
  lemma SelectionExactly(o: Orders, registry: seq<Suite>, opts: Options, suite: Suite)
    requires Preorder(o.locale)
    ensures suite in Selection(o, registry, opts) <==>
            && suite in registry
            && (|opts.ids| > 0 ==> suite.id in opts.ids) && (|opts.profiles| > 0 ==> suite.profile in opts.profiles)
            && suite.profile !in opts.exclude
    ensures suite in Selection(o, registry, opts) ==>
              multiset(Selection(o, registry, opts))[suite] == multiset(registry)[suite]
    ensures forall i, j :: 0 <= i < j < |Selection(o, registry, opts)| ==>
              o.locale(Selection(o, registry, opts)[i].path, Selection(o, registry, opts)[j].path)
  {
    var keep := (s: Suite) => Selected(opts, s);
    SortMultiset(ByPath(o), registry);
    FilterCount(keep, Sort(ByPath(o), registry), suite);
    assert Preorder(ByPath(o)) by {
      assert forall a: Suite, b: Suite :: ByPath(o)(a, b) == o.locale(a.path, b.path);
    }
    SortSorted(ByPath(o), registry);
    FilterSorted(ByPath(o), keep, Sort(ByPath(o), registry));
    hide Sort, Filter;
    assert forall a: Suite, b: Suite :: ByPath(o)(a, b) == o.locale(a.path, b.path);
  }

  lemma {:induction false} FilterSorted<T(!new)>(leq: (T, T) -> bool, keep: T -> bool, s: seq<T>)
    requires Sorted(leq, s)
    ensures Sorted(leq, Filter(keep, s))
  {
    if s != [] {
      FilterSorted(leq, keep, s[1..]);
      forall x | x in s[1..] ensures leq(s[0], x) { var i :| 0 <= i < |s[1..]| && s[1..][i] == x; assert s[i + 1] == x; }
      assert forall x <- Filter(keep, s[1..]) :: x in s[1..];
    }
  }

  function ListAll(o: Orders, suites: seq<Suite>): seq<Listed> { Map((s: Suite) => List(o, s), suites) }

  /** `makeOptionsSnapshot`. */
  function Snapshot(o: Orders, opts: Options): Options
  {
    opts.(profiles := Sort(o.code, opts.profiles), ids := Sort(o.code, opts.ids),
          exclude := Sort(o.code, opts.exclude), allowBlockers := Sort(o.code, opts.allowBlockers))
  }

  function Shown(opts: Options): ReportOptions
  {
    ReportOptions(opts.concurrency, opts.failFast, opts.timeoutMs, opts.deadlineMs,
                  opts.profiles, opts.ids, opts.exclude, opts.allowBlockers, opts.noBlock)
  }

  function MakeInventory(o: Orders, d: Digests, runId: string, registry: seq<Suite>, opts: Options, revision: string): Inventory
  {
    var listed := ListAll(o, Selection(o, registry, opts));
    var options := Snapshot(o, opts);
    Inventory(runId, revision, d.inventory(listed), d.options(options), d.registry(registry), options, listed)
  }

  // ---- counting ----

  /** How many values have a key: the counters that the loops fill. */
  function Count<T>(keep: T -> bool, s: seq<T>): nat { |Filter(keep, s)| }

  function StatusCount(results: seq<Row>, status: Status): nat { Count((r: Row) => r.status == status, results) }

  function StatusCounts(results: seq<Row>): map<Status, nat>
  {
    map status | status in STATUSES :: StatusCount(results, status)
  }

  lemma CountOne<T>(keep: T -> bool, s: seq<T>, i: nat)
    requires i < |s|
    ensures Count(keep, s[..i + 1]) == Count(keep, s[..i]) + (if keep(s[i]) then 1 else 0)
  {
    assert s[..i + 1] == s[..i] + [s[i]];
    FilterAppend(keep, s[..i], [s[i]]);
  }

  lemma StatusOne(results: seq<Row>, i: nat, status: Status)
    requires i < |results|
    ensures StatusCount(results[..i + 1], status) ==
            StatusCount(results[..i], status) + (if results[i].status == status then 1 else 0)
  {
    CountOne((r: Row) => r.status == status, results, i);
  }

  lemma NoneYet(results: seq<Row>, status: Status)
    ensures StatusCount(results[..0], status) == 0
  {
  }

  lemma EveryStatus()
    ensures forall status: Status :: status in STATUSES
  {
    forall status: Status ensures status in STATUSES {
      match status
      case PASS =>
      case FAIL =>
      case TIMEOUT =>
      case BLOCKED =>
      case SKIPPED =>
    }
  }

  method CountStatuses(results: seq<Row>) returns (counts: map<Status, nat>)
    ensures counts == StatusCounts(results)
  {
    EveryStatus();
    hide StatusCount;
    counts := map[PASS := 0, FAIL := 0, TIMEOUT := 0, BLOCKED := 0, SKIPPED := 0];
    assert counts.Keys == STATUSES;
    forall status ensures StatusCount(results[..0], status) == 0 { NoneYet(results, status); }
    for i := 0 to |results|
      invariant forall status: Status :: status in counts && counts[status] == StatusCount(results[..i], status)
    {
      forall status
        ensures StatusCount(results[..i + 1], status) ==
                StatusCount(results[..i], status) + (if results[i].status == status then 1 else 0)
      {
        StatusOne(results, i, status);
      }
      counts := counts[results[i].status := counts[results[i].status] + 1];
    }
    assert results[..|results|] == results;
    assert counts.Keys == STATUSES;
  }

  function ProfileCount(suites: seq<Suite>, profile: string): nat { Count((s: Suite) => s.profile == profile, suites) }

  lemma ProfileOne(suites: seq<Suite>, i: nat, profile: string)
    requires i < |suites|
    ensures ProfileCount(suites[..i + 1], profile) ==
            ProfileCount(suites[..i], profile) + (if suites[i].profile == profile then 1 else 0)
  {
    CountOne((s: Suite) => s.profile == profile, suites, i);
  }

  lemma NoProfileYet(suites: seq<Suite>, profile: string)
    ensures ProfileCount(suites[..0], profile) == 0
  {
  }

  /** `countByCategory` and `countValues`: a count for each profile that occurs, and zero for those named. */
  method CountProfiles(suites: seq<Suite>, named: set<string>) returns (counts: map<string, nat>)
    ensures forall p :: p in counts <==> p in named || ProfileCount(suites, p) > 0
    ensures forall p <- counts :: counts[p] == ProfileCount(suites, p)
  {
    counts := map p | p in named :: 0;
    hide ProfileCount;
    forall p ensures ProfileCount(suites[..0], p) == 0 { NoProfileYet(suites, p); }
    for i := 0 to |suites|
      invariant forall p :: p in counts <==> p in named || ProfileCount(suites[..i], p) > 0
      invariant forall p <- counts :: counts[p] == ProfileCount(suites[..i], p)
    {
      forall p
        ensures ProfileCount(suites[..i + 1], p) ==
                ProfileCount(suites[..i], p) + (if suites[i].profile == p then 1 else 0)
      {
        ProfileOne(suites, i, p);
      }
      var profile := suites[i].profile;
      counts := counts[profile := (if profile in counts then counts[profile] else 0) + 1];
    }
    assert suites[..|suites|] == suites;
  }

  // ---- the report ----

  function RequiredProblems(results: seq<Row>): seq<Row> { Filter(Bad, results) }

  function RequiredBlocked(results: seq<Row>): seq<Row>
  {
    Filter((r: Row) => r.status == BLOCKED, RequiredProblems(results))
  }

  function RequiredFailures(results: seq<Row>): seq<Row>
  {
    Filter((r: Row) => r.status != BLOCKED, RequiredProblems(results))
  }

  /** The verdict on a list of results, and its exit code. */
  function VerdictOf(results: seq<Row>): Verdict
  {
    if RequiredFailures(results) != [] then Failed else if RequiredBlocked(results) != [] then Blocked else Passed
  }

  function ExitCode(v: Verdict): nat
  {
    match v
    case Passed => 0
    case DryRun => 0
    case Blocked => 2
    case Failed => 1
  }

  /** A verdict is the strongest complaint of any required row. */
  lemma VerdictMeans(results: seq<Row>)
    ensures VerdictOf(results) == Passed <==> forall r <- results :: r.required ==> r.status == PASS
    ensures VerdictOf(results) == Failed <==> exists r <- results :: r.required && r.status !in {PASS, BLOCKED}
    ensures VerdictOf(results) == Blocked <==>
            (exists r <- results :: r.required && r.status == BLOCKED)
            && forall r <- results :: r.required ==> r.status == PASS || r.status == BLOCKED
    ensures ExitCode(VerdictOf(results)) == 0 <==> VerdictOf(results) == Passed
    ensures ExitCode(VerdictOf(results)) == 1 <==> VerdictOf(results) == Failed
    ensures ExitCode(VerdictOf(results)) == 2 <==> VerdictOf(results) == Blocked
  {
    var problems := RequiredProblems(results);
    if RequiredFailures(results) != [] { assert RequiredFailures(results)[0] in RequiredFailures(results); }
    if RequiredBlocked(results) != [] { assert RequiredBlocked(results)[0] in RequiredBlocked(results); }
    forall r | r in results && Bad(r)
      ensures if r.status == BLOCKED then RequiredBlocked(results) != [] else RequiredFailures(results) != []
    {
      assert r in problems;
      assert if r.status == BLOCKED then r in RequiredBlocked(results) else r in RequiredFailures(results);
    }
  }

  /** `applyInterruptionToReport`: a requested signal overrides the verdict. */
  function Interrupt(report: Report, signal: Option<string>): Report
  {
    if signal.None? then report
    else report.(interruptionSignal := signal, verdict := Failed, exitCode := 1)
  }

  /** What `makeReport` returns for a run that is not dry. */
  ghost predicate ReportOf(report: Report, inventory: Inventory, named: set<string>, results: seq<Row>, signal: Option<string>)
  {
    && report.runId == inventory.runId && report.sourceRevision == inventory.sourceRevision
    && !report.dryRun && report.options == Shown(inventory.options)
    && report.inventoryFingerprint == inventory.inventoryFingerprint
    && report.optionsFingerprint == inventory.optionsFingerprint && report.registryHash == inventory.registryHash
    && report.interruptionSignal == signal
    && report.total == |inventory.suites|
    && (forall p :: p in report.counts <==> p in named || ProfileCount(Suites(inventory.suites), p) > 0)
    && (forall p <- report.counts :: report.counts[p] == ProfileCount(Suites(inventory.suites), p))
    && report.statusCounts == StatusCounts(results)
    && report.verdict == (if signal.Some? then Failed else VerdictOf(results))
    && report.exitCode == (if signal.Some? then 1 else ExitCode(VerdictOf(results)))
    && report.requiredFailureCount == |RequiredProblems(results)|
    && report.requiredBlockedCount == |RequiredBlocked(results)|
    && report.results == results
  }

  function Suites(listed: seq<Listed>): seq<Suite> { Map((l: Listed) => l.suite, listed) }

  /** `makeReport`; `named` are the profiles that the counts always show, `root` is where the audit ran. */
  method MakeReport(inventory: Inventory, named: set<string>, results: seq<Row>, signal: Option<string>, root: string)
    returns (report: Report)
    ensures ReportOf(report, inventory, named, results, signal) && report.sourceRoot == root
  {
    hide Filter, Bad, ProfileCount, Suites, StatusCounts;
    var counts := CountProfiles(Suites(inventory.suites), named);
    var statusCounts := CountStatuses(results);
    var requiredProblems := Filter(Bad, results);
    var requiredBlocked := Filter((r: Row) => r.status == BLOCKED, requiredProblems);
    var requiredFailures := Filter((r: Row) => r.status != BLOCKED, requiredProblems);
    var verdict := if |requiredFailures| > 0 then Failed else if |requiredBlocked| > 0 then Blocked else Passed;
    var exitCode := if verdict == Passed then 0 else if verdict == Blocked then 2 else 1;
    report := Report(
      inventory.runId, inventory.sourceRevision, false, Shown(inventory.options), root,
      inventory.inventoryFingerprint, inventory.optionsFingerprint, inventory.registryHash,
      signal, |inventory.suites|, counts, statusCounts, verdict, exitCode,
      |requiredProblems|, |requiredBlocked|, results);
    report := Interrupt(report, signal);
  }
}
