/** A concrete audit that a signal interrupted after its last suite, and what the contract makes of it. */
module AuditInterrupted {
  import opened Common
  import opened Sorting
  import opened AuditRow
  import opened AuditReport
  import opened AuditContract
  import AuditEvidence

  const REVISION: string := "revision"

  const SUITE: Suite :=
    Suite("id", "path", "offline", ["node"], true, "ACTIVE", 0, Requirements(false, false, false, false, false, []))

  const REGISTRY: seq<Suite> := [SUITE]

  const ORDERS: Orders := Orders(TextLeq, TextLeq)

  const DIGESTS: Digests := Digests((s: seq<Listed>) => "", (o: Options) => "", (s: seq<Suite>) => "")

  const POLICY: Policy := Policy("", map["offline" := 1], "/work")

  function Hash(): string { seq(64, _ => '0') }

  const LOGS: map<string, LogFile> := map["log" := Regular(Hash())]

  /** A child that left with this exit code and complete evidence. */
  function Exit(code: int): ChildEnd
  {
    ChildEnd(false, Some(code), None, false, Cleanup(true, false, Some(true)), SourceTree(true, Some(true), Some(REVISION)),
             false, false, false, Some(Hash()))
  }

  function Result(code: int): Row { ExecutedRow(SUITE, Source(REVISION, false), "log", Exit(code)) }

  function TheInventory(): Inventory { MakeInventory(ORDERS, DIGESTS, RUN_ID, REGISTRY, LOCKED, REVISION) }

  function Named(): set<string> { {"offline", "database"} }

  /** The report of that run after `SIGTERM`. */
  function TheReport(code: int): Report
  {
    var i, results := TheInventory(), [Result(code)];
    Report(i.runId, i.sourceRevision, false, Shown(i.options), POLICY.worktree,
           i.inventoryFingerprint, i.optionsFingerprint, i.registryHash, Some("SIGTERM"), |i.suites|,
           map p | p in Named() :: ProfileCount(Suites(i.suites), p),
           StatusCounts(results), Failed, 1, |RequiredProblems(results)|, |RequiredBlocked(results)|, results)
  }

  lemma OneSelected()
    ensures Expected(REGISTRY) == REGISTRY && Selection(ORDERS, REGISTRY, LOCKED) == REGISTRY
    ensures Preorder(TextLeq)
  {
    TextOrder();
    assert Expected(REGISTRY) == REGISTRY;
    SelectionIsExpected(ORDERS, REGISTRY);
    assert Sort(ByPath(ORDERS), REGISTRY) == REGISTRY;
  }

  lemma OneCounted(p: string)
    ensures ProfileCount(REGISTRY, p) == if p == "offline" then 1 else 0
  {
  }

  lemma IsReviewed()
    ensures Reviewed(DIGESTS, POLICY, REGISTRY) && Distinct(SuiteIds(REGISTRY))
  {
    OneSelected();
    forall p ensures ProfileCount(REGISTRY, p) == if p == "offline" then 1 else 0 { OneCounted(p); }
    hide ProfileCount;
  }

  lemma ListedSuites()
    ensures Suites(TheInventory().suites) == REGISTRY
  {
    OneSelected();
    ListedBack(ORDERS, REGISTRY);
    hide Blockers;
  }

  lemma IsReport(code: int)
    ensures ReportOf(TheReport(code), TheInventory(), Named(), [Result(code)], Some("SIGTERM"))
  {
    ListedSuites();
    forall p ensures ProfileCount(REGISTRY, p) == if p == "offline" then 1 else 0 { OneCounted(p); }
    hide ProfileCount, MakeInventory, Result, StatusCounts, RequiredProblems, RequiredBlocked, Suites, Shown;
  }

  lemma IsLocked(code: int)
    ensures LockedRun(ORDERS, DIGESTS, POLICY, REGISTRY, TheInventory(), TheReport(code), Named(), [Result(code)],
                      Some("SIGTERM"), REVISION)
  {
    IsReviewed();
    IsReport(code);
    TextOrder();
    OneSelected();
    assert Ids([Result(code)]) == ["id"] == SuiteIds(REGISTRY);
    hide Reviewed, ReportOf, TotalOrder, Preorder, Selection, MakeInventory, Result, Distinct;
  }

  lemma ResultSound(code: int)
    ensures ResultsOk(REGISTRY, [Result(code)], REVISION, LOGS)
    ensures Result(code).status == if code == 0 then PASS else FAIL
  {
    OneSelected();
    AuditEvidence.ByIdIs(REGISTRY, SUITE);
    var origin := AuditEvidence.FromChild("log", Exit(code));
    assert AuditEvidence.Possible(origin);
    assert AuditEvidence.CleanEvidence(Result(code), REVISION, LOGS);
    hide ResultOk, Expected;
    AuditEvidence.OriginalOk(SUITE, Source(REVISION, false), origin, ById(REGISTRY), LOGS);
  }

  /**
   The interrupted report of a run whose only suite failed satisfies the contract; the one of a run
   whose only suite passed does not.
   */
  lemma InterruptedReports(code: int)
    ensures var report := TheReport(code);
            && report.interruptionSignal == Some("SIGTERM")
            && (AuditOk(ORDERS, DIGESTS, POLICY, REGISTRY, TheInventory(), report, REVISION, report.exitCode, LOGS) <==>
                code != 0)
  {
    IsLocked(code);
    ResultSound(code);
    VerdictMeans([Result(code)]);
    assert Result(code).required by { assert SUITE.required; }
    hide LockedRun, ResultsOk, AuditOk, VerdictOf, TheInventory;
    Agreement(ORDERS, DIGESTS, POLICY, REGISTRY, TheInventory(), TheReport(code), Named(), [Result(code)],
              Some("SIGTERM"), REVISION, LOGS);
    assert Bad(Result(code)) <==> code != 0;
    assert Result(code) in [Result(code)];
  }
}
