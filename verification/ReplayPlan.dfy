/** The locked Gate 0 execution plan, and where its replay is faithful. */
module ReplayPlan {
  import opened Common
  import opened NodePath
  import opened Replay
  import opened ReplayTheorem
  import opened ReplayTokens
  import Shell = PosixShell

  predicate HexDigit(c: char) { '0' <= c <= '9' || 'a' <= c <= 'f' }

  /** `assertCandidateSha`. */
  predicate CandidateSha(sha: string) { |sha| == 40 && forall c <- sha :: HexDigit(c) }

  function EvidenceRoot(sha: string): string { ".intentsmith-artifacts" + "/" + "gate0" + "/" + ("candidate-" + sha) }

  function InstallRoot(root: string, sha: string): string
  {
    PathJoin(root, [EvidenceRoot(sha) + ("/" + "install-root")])
  }

  function InheritedKeys(): seq<string> { ["PATH", "SYSTEMROOT", "WINDIR", "PATHEXT", "COMSPEC"] }

  /** The overrides that name a path below the install root. */
  function OwnedPaths(): seq<(string, seq<string>)>
  {
    [ ("HOME", ["home"]), ("XDG_CONFIG_HOME", ["xdg-config"]), ("XDG_CACHE_HOME", ["xdg-cache"]),
      ("XDG_DATA_HOME", ["xdg-data"]), ("XDG_STATE_HOME", ["xdg-state"]),
      ("TMPDIR", ["tmp"]), ("TMP", ["tmp"]), ("TEMP", ["tmp"]), ("GIT_CONFIG_GLOBAL", ["gitconfig"]) ]
  }

  function OwnedCaches(): seq<(string, seq<string>)>
  {
    [ ("npm_config_cache", ["npm-cache"]), ("YARN_CACHE_FOLDER", ["yarn-cache"]), ("PIP_CACHE_DIR", ["pip-cache"]),
      ("COREPACK_HOME", ["corepack"]), ("INTENTSMITH_DB_PATH", ["runtime", "install.sqlite"]),
      ("INTENTSMITH_PROJECTS_DIR", ["runtime", "projects"]),
      ("INTENTSMITH_PORT_FILE", ["runtime", "intentsmith.port"]) ]
  }

  function Constants(): seq<(string, string)>
  {
    [ ("INTENTSMITH_LIFECYCLE_AUTO_COMMIT", "false"), ("INTENTSMITH_ENABLE_AUTONOMY", "false"),
      ("INTENTSMITH_LOG_LEVEL", "warn"), ("NODE_ENV", "test"), ("CI", "1"), ("NO_COLOR", "1"),
      ("LANG", "C.UTF-8"), ("LC_ALL", "C.UTF-8"), ("TZ", "UTC"), ("PYTHONNOUSERSITE", "1") ]
  }

  function PdfPython(): seq<string> { ["xdg-data", "intentsmith", "python", "pdf", "bin", "python"] }

  function Located(install: string, entries: seq<(string, seq<string>)>): seq<(string, string)>
  {
    Map((e: (string, seq<string>)) => (e.0, PathJoin(install, e.1)), entries)
  }

  function Overrides(root: string, sha: string): seq<(string, string)>
  {
    var install := InstallRoot(root, sha);
    Located(install, OwnedPaths()) + [("GIT_CONFIG_NOSYSTEM", "1")] + Located(install, OwnedCaches()) + Constants()
  }

  function PdfOverrides(root: string, sha: string): seq<(string, string)>
  {
    Located(InstallRoot(root, sha), [("INTENTSMITH_PDF_PYTHON", PdfPython()), ("C3_PDF_PYTHON", PdfPython())])
  }

  function AuditOverrides(root: string, sha: string): seq<(string, string)>
  {
    Overrides(root, sha) + PdfOverrides(root, sha)
  }

  function AuditArgv(selector: string, runId: string, outDir: string, timeout: string, deadline: string): seq<string>
  {
    [ "scripts/nightly-audit.js", selector, "--run-id=" + runId, "--out-dir=" + outDir,
      "--timeout-minutes=" + timeout, "--deadline-hours=" + deadline, "--concurrency=1" ]
  }

  const PILOT: string := "--suite=IS-T2-TESTS-PILOT-C1C2C3-TEST"
  const SOAK: string :=
    "--suite=" + "IS-T5-TESTS-SOAK-ATTACHMENT-HEAVY-TEST,IS-T5-TESTS-SOAK-BREAK-PATTERN-PROBE-TEST,"
    + "IS-T5-TESTS-SOAK-FOLLOWUP-LOAD-TEST,IS-T5-TESTS-SOAK-MIXED-SESSION-SIMULATION-TEST,"
    + "IS-T5-TESTS-SOAK-SHORT-INPUT-STRESS-TEST"

  function Install(root: string, sha: string): Execution
  {
    Execution(root, "./scripts/install.sh", ["--minimal"], InheritedKeys(), Overrides(root, sha))
  }

  function Audit(root: string, sha: string, argv: seq<string>): Execution
  {
    Execution(root, "node", argv, InheritedKeys(), AuditOverrides(root, sha))
  }

  function PilotArgv(sha: string, ordinal: string): seq<string>
  {
    AuditArgv(PILOT, "pilot-" + ordinal + "-" + sha, EvidenceRoot(sha) + "/pilot", "5", "1")
  }

  /** `buildGate0ExecutionPlan`: two installs, the deterministic audit, five pilots and the soak guard. */
  function Plan(root: string, sha: string): seq<Execution>
  {
    [ Install(root, sha), Install(root, sha),
      Audit(root, sha, AuditArgv("--profile=offline,database", "deterministic-" + sha,
                                 EvidenceRoot(sha) + "/deterministic", "10", "8")),
      Audit(root, sha, PilotArgv(sha, "01")), Audit(root, sha, PilotArgv(sha, "02")),
      Audit(root, sha, PilotArgv(sha, "03")), Audit(root, sha, PilotArgv(sha, "04")),
      Audit(root, sha, PilotArgv(sha, "05")),
      Audit(root, sha, AuditArgv(SOAK, "soak-guard-" + sha, EvidenceRoot(sha) + "/soak", "60", "1")) ]
  }

  // ---- roots ----

  /** The form in which the operating system reports a working directory other than `/`. */
  predicate Canonical(root: string)
  {
    Resolved(root) != [] && root == "/" + Join(Resolved(root))
  }

  lemma {:induction false} JoinConcat(a: seq<string>, b: seq<string>)
    requires a != [] && b != []
    ensures Join(a + b) == Join(a) + "/" + Join(b)
  {
    if |a| == 1 {
      assert (a + b)[1..] == b;
    } else {
      assert (a + b)[0] == a[0] && (a + b)[1..] == a[1..] + b;
      JoinConcat(a[1..], b);
    }
  }

  lemma JoinEnd(segments: seq<string>)
    requires segments != [] && AllPlain(segments)
    ensures Join(segments) != "" && Join(segments)[|Join(segments)| - 1] != '/'
  {
    var last := segments[|segments| - 1];
    assert segments == segments[..|segments| - 1] + [last];
    if |segments| > 1 { JoinConcat(segments[..|segments| - 1], [last]); }
    assert last[|last| - 1] in last;
  }

  lemma ResolvedAbsolute(segments: seq<string>)
    requires segments != [] && AllPlain(segments)
    ensures Resolved("/" + Join(segments)) == segments
  {
    ResolvedBelow("", segments);
    assert "" + "/" + Join(segments) == "/" + Join(segments);
    assert Normal([], Split("")) == [];
    assert [] + segments == segments;
  }

  /** Joining plain components onto any absolute directory resolves the directory and appends them. */
  lemma JoinBelow(directory: string, parts: seq<string>, segments: seq<string>)
    requires IsAbsolute(directory) && parts != [] && segments != [] && AllPlain(segments)
    requires Join(parts) == Join(segments)
    ensures PathJoin(directory, parts) == "/" + Join(Resolved(directory) + segments)
    ensures Resolved(PathJoin(directory, parts)) == Resolved(directory) + segments
  {
    var text := Join(segments);
    var joined := directory + "/" + text;
    assert ([directory] + parts)[1..] == parts;
    assert Join([directory] + parts) == joined;
    ResolvedBelow(directory, segments);
    JoinEnd(segments);
    var last := joined[|joined| - 1..];
    assert last[0] == text[|text| - 1];
    var all := Resolved(directory) + segments;
    assert ("/" + Join(all)) + "" == "/" + Join(all);
    ResolvedAbsolute(all);
  }

  function InstallSegments(sha: string): seq<string>
  {
    [".intentsmith-artifacts", "gate0", "candidate-" + sha, "install-root"]
  }

  lemma JoinFour(a: string, b: string, c: string, d: string)
    ensures Join([a, b, c, d]) == a + "/" + b + "/" + c + "/" + d
  {
    assert [c, d][1..] == [d] && Join([c, d]) == c + "/" + d;
    assert [b, c, d][1..] == [c, d] && Join([b, c, d]) == b + "/" + Join([c, d]);
    assert [a, b, c, d][1..] == [b, c, d] && Join([a, b, c, d]) == a + "/" + Join([b, c, d]);
    assert a + "/" + (b + "/" + (c + "/" + d)) == a + "/" + b + "/" + c + "/" + d;
  }

  lemma CandidatePlain(sha: string)
    requires CandidateSha(sha)
    ensures Plain("candidate-" + sha) && Literal("candidate-" + sha)
  {
    assert !HexDigit('/') && !HexDigit('$') && !HexDigit('`');
    assert |"candidate-" + sha| == 50;
  }

  lemma InstallPlain(sha: string)
    requires CandidateSha(sha)
    ensures AllPlain(InstallSegments(sha))
    ensures forall segment <- InstallSegments(sha) :: Literal(segment)
  {
    CandidatePlain(sha);
  }

  lemma InstallText(sha: string)
    ensures Join(InstallSegments(sha)) == EvidenceRoot(sha) + ("/" + "install-root")
  {
    JoinFour(".intentsmith-artifacts", "gate0", "candidate-" + sha, "install-root");
    SlashFirst(EvidenceRoot(sha), "install-root");
  }

  lemma SlashFirst(a: string, b: string)
    ensures a + ("/" + b) == a + "/" + b
  {
  }

  lemma JoinTwice(root: string, text: string, install: seq<string>, parts: seq<string>)
    requires IsAbsolute(root) && text == Join(install)
    requires install != [] && AllPlain(install) && parts != [] && AllPlain(parts)
    ensures PathJoin(PathJoin(root, [text]), parts) == "/" + Join(Resolved(root) + (install + parts))
    ensures Resolved(PathJoin(PathJoin(root, [text]), parts)) == Resolved(root) + (install + parts)
  {
    assert Join([text]) == text;
    hide *;
    JoinBelow(root, [text], install);
    var inner := PathJoin(root, [text]);
    assert IsAbsolute(inner) by { SlashIsAbsolute(Join(Resolved(root) + install)); }
    JoinBelow(inner, parts, parts);
    Regroup(Resolved(root), install, parts);
  }

  lemma SlashIsAbsolute(text: string)
    ensures IsAbsolute("/" + text)
  {
  }

  /** Where an owned path really lies, for any absolute root. */
  lemma OwnedPath(root: string, sha: string, parts: seq<string>)
    requires IsAbsolute(root) && CandidateSha(sha) && parts != [] && AllPlain(parts)
    ensures PathJoin(InstallRoot(root, sha), parts) == "/" + Join(Resolved(root) + (InstallSegments(sha) + parts))
    ensures Resolved(PathJoin(InstallRoot(root, sha), parts)) == Resolved(root) + (InstallSegments(sha) + parts)
  {
    InstallPlain(sha);
    InstallText(sha);
    JoinTwice(root, EvidenceRoot(sha) + ("/" + "install-root"), InstallSegments(sha), parts);
  }

  lemma OwnedInside(root: string, sha: string, parts: seq<string>)
    requires IsAbsolute(root) && CandidateSha(sha) && parts != [] && AllPlain(parts)
    ensures var value := PathJoin(InstallRoot(root, sha), parts);
            && IsAbsolute(value) && IsPathInside(root, value)
            && Relative(root, value) == Join(InstallSegments(sha) + parts)
  {
    OwnedPath(root, sha, parts);
    var value := PathJoin(InstallRoot(root, sha), parts);
    InsideMeansBelow(root, value);
    var all := Resolved(value);
    assert all[..|Resolved(root)|] == Resolved(root) && all[|Resolved(root)|..] == InstallSegments(sha) + parts;
  }

  lemma LiteralBelow(sha: string, parts: seq<string>)
    requires CandidateSha(sha) && forall part <- parts :: Literal(part)
    ensures Literal(Join(InstallSegments(sha) + parts))
  {
    InstallPlain(sha);
    JoinFromInput(InstallSegments(sha) + parts, '$');
    JoinFromInput(InstallSegments(sha) + parts, '`');
  }

  /** Two ways to write a path below a root agree exactly when the root is canonical. */
  lemma BelowCanonical(root: string, below: seq<string>)
    requires IsAbsolute(root) && below != []
    ensures "/" + Join(Resolved(root) + below) == root + "/" + Join(below) <==> Canonical(root)
  {
    var r := Resolved(root);
    var tail := "/" + Join(below);
    assert root + "/" + Join(below) == root + tail;
    if r == [] {
      assert r + below == below;
      assert |"/" + Join(below)| < |root + tail|;
    } else {
      JoinConcat(r, below);
      var front := "/" + Join(r);
      assert "/" + Join(r + below) == front + tail;
      if front + tail == root + tail {
        assert |front| == |root|;
        assert (front + tail)[..|front|] == front && (root + tail)[..|root|] == root;
      }
    }
  }

  /** An owned path can be replayed below exactly the canonical roots. */
  lemma OwnedReplayable(root: string, sha: string, parts: seq<string>)
    requires IsAbsolute(root) && CandidateSha(sha) && parts != [] && AllPlain(parts)
    requires forall part <- parts :: Literal(part)
    ensures var value := PathJoin(InstallRoot(root, sha), parts);
            value != root && (TokenReplayable(value, root) <==> Canonical(root))
  {
    OwnedPath(root, sha, parts);
    OwnedInside(root, sha, parts);
    RelativeIsTail(root, PathJoin(InstallRoot(root, sha), parts));
    LiteralBelow(sha, parts);
    BelowCanonical(root, InstallSegments(sha) + parts);
  }

  // ---- the plan ----

  predicate Segment(s: string) { Plain(s) && Literal(s) }

  predicate OwnedEntry(e: (string, seq<string>)) { e.1 != [] && forall part <- e.1 :: Segment(part) }

  lemma DirectoriesPlain()
    ensures Segment("home") && Segment("xdg-config") && Segment("xdg-cache") && Segment("xdg-data")
    ensures Segment("xdg-state") && Segment("tmp") && Segment("gitconfig")
  {
  }

  lemma CachesPlain()
    ensures Segment("npm-cache") && Segment("yarn-cache") && Segment("pip-cache") && Segment("corepack")
  {
  }

  lemma RuntimePlain()
    ensures Segment("runtime") && Segment("install.sqlite") && Segment("projects") && Segment("intentsmith.port")
  {
  }

  lemma PythonPlain()
    ensures Segment("xdg-data") && Segment("intentsmith") && Segment("python") && Segment("pdf") && Segment("bin")
  {
  }

  lemma OwnedPathsPlain()
    ensures forall e <- OwnedPaths() :: OwnedEntry(e)
  {
    DirectoriesPlain();
    hide Segment;
  }

  lemma OwnedCachesPlain()
    ensures forall e <- OwnedCaches() :: OwnedEntry(e)
  {
    CachesPlain();
    RuntimePlain();
    hide Segment;
  }

  lemma PdfPythonPlain()
    ensures forall key: string :: OwnedEntry((key, PdfPython()))
  {
    PythonPlain();
    hide Segment;
  }

  /** A value that is neither absolute nor written with a variable. */
  predicate Ordinary(value: string) { value != "" && value[0] != '/' && value[0] != '$' }

  lemma OrdinaryReplayable(value: string, root: string)
    requires IsAbsolute(root) && Ordinary(value)
    ensures TokenReplayable(value, root)
    ensures PortableValue(value, root) == if Includes(value, root) then Err(EmbedsRoot(value)) else Ok(value)
  {
  }

  /** An ordinary value that has no slash at all. */
  predicate Constant(value: string) { Ordinary(value) && '/' !in value }

  lemma ConstantsOrdinary()
    ensures forall e <- Constants() :: Constant(e.1)
  {
  }

  /** What each override of the plan is: an owned path, or a constant. */
  ghost predicate PlannedValue(value: string, root: string, sha: string)
  {
    Constant(value) || OwnedValue(value, root, sha)
  }

  ghost predicate OwnedValue(value: string, root: string, sha: string)
  {
    exists parts :: OwnedEntry(("", parts)) && value == PathJoin(InstallRoot(root, sha), parts)
  }

  ghost predicate AllPlanned(entries: seq<(string, string)>, root: string, sha: string)
  {
    forall e <- entries :: PlannedValue(e.1, root, sha)
  }

  lemma LocatedPlanned(root: string, sha: string, entries: seq<(string, seq<string>)>)
    requires forall e <- entries :: OwnedEntry(e)
    ensures AllPlanned(Located(InstallRoot(root, sha), entries), root, sha)
  {
    var located := Located(InstallRoot(root, sha), entries);
    forall i | 0 <= i < |entries|
      ensures PlannedValue(located[i].1, root, sha)
    {
      assert OwnedEntry(entries[i]) && OwnedEntry(("", entries[i].1));
    }
  }

  lemma DirectoriesPlanned(root: string, sha: string)
    ensures AllPlanned(Located(InstallRoot(root, sha), OwnedPaths()), root, sha)
  {
    OwnedPathsPlain();
    LocatedPlanned(root, sha, OwnedPaths());
  }

  lemma CachesPlanned(root: string, sha: string)
    ensures AllPlanned(Located(InstallRoot(root, sha), OwnedCaches()), root, sha)
  {
    OwnedCachesPlain();
    LocatedPlanned(root, sha, OwnedCaches());
  }

  lemma ConstantsPlanned(root: string, sha: string)
    ensures AllPlanned(Constants() + [("GIT_CONFIG_NOSYSTEM", "1")], root, sha)
  {
    ConstantsOrdinary();
  }

  lemma OverridesPlanned(root: string, sha: string)
    ensures AllPlanned(Overrides(root, sha), root, sha)
  {
    DirectoriesPlanned(root, sha);
    CachesPlanned(root, sha);
    ConstantsPlanned(root, sha);
    hide OwnedPaths, OwnedCaches, Constants, Located, PlannedValue, InstallRoot;
  }

  lemma PdfPlanned(root: string, sha: string)
    ensures AllPlanned(PdfOverrides(root, sha), root, sha)
  {
    PdfPythonPlain();
    hide OwnedEntry, PdfPython;
    LocatedPlanned(root, sha, [("INTENTSMITH_PDF_PYTHON", PdfPython()), ("C3_PDF_PYTHON", PdfPython())]);
  }

  lemma PlannedConcat(a: seq<(string, string)>, b: seq<(string, string)>, root: string, sha: string)
    requires AllPlanned(a, root, sha) && AllPlanned(b, root, sha)
    ensures AllPlanned(a + b, root, sha)
  {
    hide PlannedValue;
  }

  lemma AuditOverridesPlanned(root: string, sha: string)
    ensures AllPlanned(AuditOverrides(root, sha), root, sha)
  {
    assert AuditOverrides(root, sha) == Overrides(root, sha) + PdfOverrides(root, sha);
    hide *;
    OverridesPlanned(root, sha);
    PdfPlanned(root, sha);
    PlannedConcat(Overrides(root, sha), PdfOverrides(root, sha), root, sha);
  }

  lemma HomeIsPlanned(root: string, sha: string)
    ensures exists e <- Overrides(root, sha) :: e.1 == PathJoin(InstallRoot(root, sha), ["home"])
  {
    hide PathJoin, InstallRoot, OwnedCaches, Constants;
    var e := Overrides(root, sha)[0];
    assert e.1 == PathJoin(InstallRoot(root, sha), ["home"]);
  }

  // ---- main results ----

  lemma PlannedReplayable(root: string, sha: string, value: string)
    requires IsAbsolute(root) && CandidateSha(sha) && PlannedValue(value, root, sha)
    ensures OwnedValue(value, root, sha) ==> (TokenReplayable(value, root) <==> Canonical(root))
    ensures Ordinary(value) ==> TokenReplayable(value, root)
  {
    if Ordinary(value) {
      OrdinaryReplayable(value, root);
    }
    if OwnedValue(value, root, sha) {
      var parts :| OwnedEntry(("", parts)) && value == PathJoin(InstallRoot(root, sha), parts);
      assert AllPlain(parts) by { assert forall i :: 0 <= i < |parts| ==> Segment(parts[i]); }
      OwnedReplayable(root, sha, parts);
    }
  }

  lemma HomeOwned(root: string, sha: string)
    ensures OwnedValue(PathJoin(InstallRoot(root, sha), ["home"]), root, sha)
  {
    DirectoriesPlain();
    assert OwnedEntry(("", ["home"]));
  }

  lemma EntriesReplayable(root: string, sha: string, entries: seq<(string, string)>)
    requires IsAbsolute(root) && CandidateSha(sha) && AllPlanned(entries, root, sha)
    requires exists e <- entries :: e.1 == PathJoin(InstallRoot(root, sha), ["home"])
    ensures (forall value <- Values(entries) :: TokenReplayable(value, root)) <==> Canonical(root)
  {
    hide OwnedValue, Ordinary, PathJoin, InstallRoot, TokenReplayable, Canonical;
    forall i | 0 <= i < |entries|
      ensures Canonical(root) ==> TokenReplayable(Values(entries)[i], root)
    {
      assert entries[i] in entries;
      PlannedReplayable(root, sha, entries[i].1);
    }
    var e :| e in entries && e.1 == PathJoin(InstallRoot(root, sha), ["home"]);
    HomeOwned(root, sha);
    PlannedReplayable(root, sha, e.1);
    var i :| 0 <= i < |entries| && entries[i] == e;
    assert Values(entries)[i] == e.1;
  }

  lemma ArgvOrdinary(selector: string, runId: string, outDir: string, timeout: string, deadline: string)
    requires Ordinary(selector)
    ensures forall v <- AuditArgv(selector, runId, outDir, timeout, deadline) :: Ordinary(v)
  {
    assert ("--run-id=" + runId)[0] == '-';
    assert ("--out-dir=" + outDir)[0] == '-';
    assert ("--timeout-minutes=" + timeout)[0] == '-';
    assert ("--deadline-hours=" + deadline)[0] == '-';
  }

  lemma SelectorsOrdinary()
    ensures Ordinary(PILOT) && Ordinary("--profile=offline,database")
  {
  }

  lemma SoakOrdinary()
    ensures Ordinary(SOAK)
  {
    assert SOAK[0] == "--suite="[0];
  }

  lemma PlanShape(root: string, sha: string, e: Execution)
    requires e in Plan(root, sha)
    ensures e.cwd == root && e.inheritedKeys == InheritedKeys()
    ensures e.executable == "./scripts/install.sh" || e.executable == "node"
    ensures forall v <- e.argv :: Ordinary(v)
    ensures e.overrides == Overrides(root, sha) || e.overrides == AuditOverrides(root, sha)
  {
    SelectorsOrdinary();
    SoakOrdinary();
    hide Ordinary, SOAK, PILOT, Overrides, AuditOverrides, EvidenceRoot;
    ArgvOrdinary("--profile=offline,database", "deterministic-" + sha, EvidenceRoot(sha) + "/deterministic", "10", "8");
    forall ordinal: string ensures forall v <- PilotArgv(sha, ordinal) :: Ordinary(v) {
      ArgvOrdinary(PILOT, "pilot-" + ordinal + "-" + sha, EvidenceRoot(sha) + "/pilot", "5", "1");
    }
    ArgvOrdinary(SOAK, "soak-guard-" + sha, EvidenceRoot(sha) + "/soak", "60", "1");
    assert Ordinary("--minimal") by { MinimalOrdinary(); }
    hide AuditArgv, PilotArgv;
  }

  lemma MinimalOrdinary()
    ensures Ordinary("--minimal")
  {
  }

  lemma PlanExecutable(e: Execution)
    requires e.executable == "./scripts/install.sh" || e.executable == "node"
    ensures ExecutableReplayable(e)
  {
    PwdHead(e.executable);
  }

  lemma PwdHead(text: string)
    ensures PwdRelative(text) ==> text[0] == '$'
  {
    if StartsWith(text, "$PWD/") {
      assert text[..5][0] == text[0];
    }
  }

  lemma PlanHome(root: string, sha: string)
    ensures exists x <- AuditOverrides(root, sha) :: x.1 == PathJoin(InstallRoot(root, sha), ["home"])
  {
    HomeIsPlanned(root, sha);
    hide Overrides, PathJoin, InstallRoot;
    var x :| x in Overrides(root, sha) && x.1 == PathJoin(InstallRoot(root, sha), ["home"]);
    assert x in AuditOverrides(root, sha);
  }

  lemma PlanOverrides(root: string, sha: string, overrides: seq<(string, string)>)
    requires IsAbsolute(root) && CandidateSha(sha)
    requires overrides == Overrides(root, sha) || overrides == AuditOverrides(root, sha)
    ensures AllPlanned(overrides, root, sha)
    ensures (forall value <- Values(overrides) :: TokenReplayable(value, root)) <==> Canonical(root)
  {
    hide Overrides, AuditOverrides, PathJoin, InstallRoot, TokenReplayable, Canonical, PlannedValue;
    OverridesPlanned(root, sha);
    AuditOverridesPlanned(root, sha);
    HomeIsPlanned(root, sha);
    PlanHome(root, sha);
    EntriesReplayable(root, sha, overrides);
  }

  /** Every execution of the plan is replayable below exactly the canonical roots. */
  lemma PlanReplayableExactly(root: string, sha: string, e: Execution)
    requires IsAbsolute(root) && CandidateSha(sha) && e in Plan(root, sha)
    ensures Replayable(e, root) <==> Canonical(root)
  {
    hide Plan, Overrides, AuditOverrides, Canonical;
    PlanShape(root, sha, e);
    PlanExecutable(e);
    PlanOverrides(root, sha, e.overrides);
    forall i | 0 <= i < |e.argv| ensures TokenReplayable(e.argv[i], root) {
      OrdinaryReplayable(e.argv[i], root);
    }
  }

  // ---- the plan always prints ----

  lemma InheritedKeysSafe()
    ensures forall key <- InheritedKeys() :: InheritedKey(key)
  {
  }

  lemma HomeKeys()
    ensures OverrideKey("HOME") && OverrideKey("XDG_CONFIG_HOME") && OverrideKey("XDG_CACHE_HOME")
    ensures OverrideKey("XDG_DATA_HOME") && OverrideKey("XDG_STATE_HOME")
  {
  }

  lemma TemporaryKeys()
    ensures OverrideKey("TMPDIR") && OverrideKey("TMP") && OverrideKey("TEMP") && OverrideKey("GIT_CONFIG_GLOBAL")
  {
  }

  lemma DirectoryKeysSafe()
    ensures forall e <- OwnedPaths() :: OverrideKey(e.0)
  {
    hide OverrideKey;
    HomeKeys();
    TemporaryKeys();
  }

  lemma CacheKeys()
    ensures OverrideKey("npm_config_cache") && OverrideKey("YARN_CACHE_FOLDER") && OverrideKey("PIP_CACHE_DIR")
    ensures OverrideKey("COREPACK_HOME") && OverrideKey("INTENTSMITH_DB_PATH")
  {
  }

  lemma RuntimeKeys()
    ensures OverrideKey("INTENTSMITH_PROJECTS_DIR") && OverrideKey("INTENTSMITH_PORT_FILE")
    ensures OverrideKey("GIT_CONFIG_NOSYSTEM") && OverrideKey("INTENTSMITH_PDF_PYTHON") && OverrideKey("C3_PDF_PYTHON")
  {
  }

  lemma PolicyKeys()
    ensures OverrideKey("INTENTSMITH_LIFECYCLE_AUTO_COMMIT") && OverrideKey("INTENTSMITH_ENABLE_AUTONOMY")
    ensures OverrideKey("INTENTSMITH_LOG_LEVEL")
  {
  }

  lemma LocaleKeys()
    ensures OverrideKey("NODE_ENV") && OverrideKey("CI") && OverrideKey("NO_COLOR") && OverrideKey("LANG")
    ensures OverrideKey("LC_ALL") && OverrideKey("TZ") && OverrideKey("PYTHONNOUSERSITE")
  {
  }

  lemma CacheKeysSafe()
    ensures forall e <- OwnedCaches() :: OverrideKey(e.0)
  {
    hide OverrideKey;
    CacheKeys();
    RuntimeKeys();
  }

  lemma ConstantKeysSafe()
    ensures forall e <- Constants() :: OverrideKey(e.0)
  {
    hide OverrideKey;
    PolicyKeys();
    LocaleKeys();
  }

  lemma LocatedKeys(install: string, entries: seq<(string, seq<string>)>)
    requires forall e <- entries :: OverrideKey(e.0)
    ensures forall e <- Located(install, entries) :: OverrideKey(e.0)
  {
    hide OverrideKey, PathJoin;
    forall i | 0 <= i < |entries| ensures OverrideKey(Located(install, entries)[i].0) {
      assert entries[i] in entries;
    }
  }

  lemma PlanKeysSafe(root: string, sha: string)
    ensures forall e <- AuditOverrides(root, sha) :: OverrideKey(e.0)
  {
    hide OverrideKey, OwnedPaths, OwnedCaches, Constants, PdfPython, InstallRoot, PathJoin;
    DirectoryKeysSafe();
    CacheKeysSafe();
    RuntimeKeys();
    ConstantKeysSafe();
    LocatedKeys(InstallRoot(root, sha), OwnedPaths());
    LocatedKeys(InstallRoot(root, sha), OwnedCaches());
    LocatedKeys(InstallRoot(root, sha), [("INTENTSMITH_PDF_PYTHON", PdfPython()), ("C3_PDF_PYTHON", PdfPython())]);
    assert forall e <- PdfOverrides(root, sha) :: OverrideKey(e.0);
  }

  lemma FormatsWhenSafe(p: Execution)
    requires forall key <- p.inheritedKeys :: InheritedKey(key)
    requires forall e <- p.overrides :: OverrideKey(e.0)
    ensures FormatPortable(p).Ok?
  {
    hide OverrideKey, InheritedKey;
    forall i | 0 <= i < |p.overrides| ensures OverrideKey(Keys(p.overrides)[i]) {
      assert p.overrides[i] in p.overrides;
    }
  }

  // ---- which roots the plan can be made portable for ----

  lemma {:induction false} IncludesSlash(s: string, root: string)
    requires IsAbsolute(root) && Includes(s, root)
    ensures '/' in s
  {
    if StartsWith(s, root) {
      assert s[0] == s[..|root|][0];
    } else {
      IncludesSlash(s[1..], root);
    }
  }

  lemma PlannedPortable(root: string, sha: string, value: string)
    requires IsAbsolute(root) && CandidateSha(sha) && PlannedValue(value, root, sha)
    ensures PortableValue(value, root).Ok?
  {
    if OwnedValue(value, root, sha) {
      var parts :| OwnedEntry(("", parts)) && value == PathJoin(InstallRoot(root, sha), parts);
      assert AllPlain(parts) by { assert forall i :: 0 <= i < |parts| ==> Segment(parts[i]); }
      OwnedInside(root, sha, parts);
    } else {
      OrdinaryReplayable(value, root);
      if Includes(value, root) { IncludesSlash(value, root); }
    }
  }

  lemma {:induction false} PortableValuesExactly(values: seq<string>, root: string)
    ensures PortableValues(values, root).Ok? <==> forall value <- values :: PortableValue(value, root).Ok?
  {
    if values != [] {
      PortableValuesExactly(values[1..], root);
      assert values == [values[0]] + values[1..];
    }
  }

  /** A plan entry is portable exactly when none of its arguments contains the root; its overrides never do. */
  lemma PlanPortableExactly(root: string, sha: string, e: Execution)
    requires IsAbsolute(root) && CandidateSha(sha) && e in Plan(root, sha)
    ensures MakePortable(e, root).Ok? <==> forall v <- e.argv :: !Includes(v, root)
  {
    hide Plan, Overrides, AuditOverrides, PlannedValue, Ordinary, PortableValue, PortableValues, CandidateSha;
    PlanShape(root, sha, e);
    PlanOverrides(root, sha, e.overrides);
    forall i | 0 <= i < |e.overrides| ensures PortableValue(Values(e.overrides)[i], root).Ok? {
      assert e.overrides[i] in e.overrides;
      PlannedPortable(root, sha, e.overrides[i].1);
    }
    forall v | v in e.argv ensures PortableValue(v, root).Ok? <==> !Includes(v, root) {
      OrdinaryReplayable(v, root);
    }
    PortableValuesExactly(e.argv, root);
    PortableValuesExactly(Values(e.overrides), root);
  }

  lemma CanonicalOne(name: string)
    requires Plain(name)
    ensures Canonical("/" + name)
  {
    ResolvedAbsolute([name]);
    assert Join([name]) == name;
  }

  lemma ScriptIncludes()
    ensures Includes("scripts/nightly-audit.js", "/n") && Ordinary("scripts/nightly-audit.js")
  {
    IncludesAfter("scripts", "/n", "ightly-audit.js");
    assert "scripts" + ("/n" + "ightly-audit.js") == "scripts/nightly-audit.js";
  }

  lemma FirstRefused(e: Execution, root: string)
    requires IsAbsolute(root) && e.cwd == root && e.argv != [] && PortableValue(e.argv[0], root).Err?
    ensures MakePortable(e, root) == Err(PortableValue(e.argv[0], root).error)
  {
  }

  lemma AuditInPlan(root: string, sha: string) returns (e: Execution)
    ensures e in Plan(root, sha) && e.cwd == root && e.argv != [] && e.argv[0] == "scripts/nightly-audit.js"
  {
    hide AuditOverrides, Overrides;
    e := Plan(root, sha)[2];
  }

  /** There are canonical roots for which the plan is refused: `/n` is a part of the audit's own script path. */
  lemma PlanRefused(sha: string) returns (e: Execution)
    ensures Canonical("/n") && e in Plan("/n", sha)
    ensures MakePortable(e, "/n") == Err(EmbedsRoot("scripts/nightly-audit.js"))
  {
    var root := "/" + "n";
    assert root == "/n";
    assert Plain("n");
    CanonicalOne("n");
    e := AuditInPlan(root, sha);
    ScriptIncludes();
    assert IsAbsolute(root);
    hide *;
    OrdinaryReplayable("scripts/nightly-audit.js", root);
    FirstRefused(e, root);
  }

  lemma {:induction false} IncludesAfter(before: string, part: string, after: string)
    ensures Includes(before + (part + after), part)
  {
    if before == "" {
      assert before + (part + after) == part + after;
      assert (part + after)[..|part|] == part;
    } else {
      assert (before + (part + after))[1..] == before[1..] + (part + after);
      IncludesAfter(before[1..], part, after);
    }
  }

  /** A portable plan entry always prints. */
  lemma PlanPrints(root: string, sha: string, e: Execution)
    requires IsAbsolute(root) && CandidateSha(sha) && e in Plan(root, sha)
    requires forall v <- e.argv :: !Includes(v, root)
    ensures MakePortable(e, root).Ok? && FormatPortable(MakePortable(e, root).value).Ok?
  {
    PlanPortableExactly(root, sha, e);
    PlanShape(root, sha, e);
    hide Plan, Overrides, AuditOverrides, OverrideKey;
    InheritedKeysSafe();
    PlanKeysSafe(root, sha);
    KeysKept(e, root);
    FormatsWhenSafe(MakePortable(e, root).value);
  }

  /** Below a canonical root the printed line of a portable plan entry means the entry. */
  lemma PlanReplays(root: string, sha: string, e: Execution, host: Shell.Vars)
    requires Canonical(root) && CandidateSha(sha) && e in Plan(root, sha)
    requires forall v <- e.argv :: !Includes(v, root)
    requires "PWD" in host && host["PWD"] == root
    ensures MakePortable(e, root).Ok? && FormatPortable(MakePortable(e, root).value).Ok?
    ensures Replays(e, root, host)
  {
    PlanReplayableExactly(root, sha, e);
    PlanPrints(root, sha, e);
    hide *;
    ReplayPreservesMeaning(e, root, host);
  }

  // ---- the keys of the plan are distinct ----

  /** The position of a key among the overrides, told from its length and a character of it. */
  function Rank(key: string): int
  {
    match |key|
    case 2 => if key[0] == 'C' then 21 else 25
    case 3 => 6
    case 4 => if key[0] == 'H' then 0 else if key[0] == 'T' then 7 else 23
    case 6 => if key[0] == 'T' then 5 else 24
    case 8 => if key[2] == 'D' then 20 else 22
    case 13 => if key[0] == 'X' then 3 else if key[0] == 'P' then 12 else if key[1] == 'O' then 13 else 28
    case 14 => if key[4] == 'C' then 2 else 4
    case 15 => 1
    case 16 => if key[0] == 'n' then 10 else 26
    case 17 => if key[0] == 'G' then 8 else 11
    case 19 => if key[0] == 'G' then 9 else 14
    case 21 => if key[12] == 'P' then 16 else 19
    case 22 => 27
    case 24 => 15
    case 27 => 18
    case 33 => 17
    case _ => -1
  }

  ghost predicate Ranked(keys: seq<string>, from: int)
  {
    forall i :: 0 <= i < |keys| ==> Rank(keys[i]) == from + i
  }

  lemma RankedConcat(a: seq<string>, b: seq<string>, from: int)
    requires Ranked(a, from) && Ranked(b, from + |a|)
    ensures Ranked(a + b, from)
  {
  }

  lemma RankedDistinct(keys: seq<string>)
    requires Ranked(keys, 0)
    ensures Distinct(keys)
  {
  }

  lemma PathRank()
    ensures Rank("HOME") == 0 && Rank("XDG_CONFIG_HOME") == 1 && Rank("XDG_CACHE_HOME") == 2
    ensures Rank("XDG_DATA_HOME") == 3 && Rank("XDG_STATE_HOME") == 4 && Rank("TMPDIR") == 5
    ensures Rank("TMP") == 6 && Rank("TEMP") == 7 && Rank("GIT_CONFIG_GLOBAL") == 8
  {
  }

  lemma CacheRank()
    ensures Rank("GIT_CONFIG_NOSYSTEM") == 9 && Rank("npm_config_cache") == 10 && Rank("YARN_CACHE_FOLDER") == 11
    ensures Rank("PIP_CACHE_DIR") == 12 && Rank("COREPACK_HOME") == 13 && Rank("INTENTSMITH_DB_PATH") == 14
    ensures Rank("INTENTSMITH_PROJECTS_DIR") == 15 && Rank("INTENTSMITH_PORT_FILE") == 16
  {
  }

  lemma PdfRank()
    ensures Rank("INTENTSMITH_PDF_PYTHON") == 27 && Rank("C3_PDF_PYTHON") == 28
  {
  }

  lemma ConstantRanks()
    ensures Ranked(Keys(Constants()), 17)
  {
  }

  lemma PathRanks(install: string)
    ensures Ranked(Keys(Located(install, OwnedPaths())), 0)
  {
    PathRank();
    hide Rank, PathJoin;
  }

  lemma CacheRanks(install: string)
    ensures Ranked(Keys(Located(install, OwnedCaches())), 10)
    ensures Rank("GIT_CONFIG_NOSYSTEM") == 9
  {
    CacheRank();
    hide Rank, PathJoin;
  }

  lemma PdfRanks(root: string, sha: string)
    ensures Ranked(Keys(PdfOverrides(root, sha)), 27)
  {
    PdfRank();
    hide Rank, PathJoin, PdfPython;
  }

  lemma KeysConcat(a: seq<(string, string)>, b: seq<(string, string)>)
    ensures Keys(a + b) == Keys(a) + Keys(b)
  {
  }

  lemma OverridesRanked(root: string, sha: string)
    ensures Ranked(Keys(Overrides(root, sha)), 0) && |Overrides(root, sha)| == 27
  {
    var install := InstallRoot(root, sha);
    var a, b, c, d :=
      Located(install, OwnedPaths()), [("GIT_CONFIG_NOSYSTEM", "1")], Located(install, OwnedCaches()), Constants();
    PathRanks(install);
    CacheRanks(install);
    ConstantRanks();
    assert Keys(b) == ["GIT_CONFIG_NOSYSTEM"];
    assert |a| == 9 && |c| == 7 && |d| == 10 && Overrides(root, sha) == a + b + c + d;
    hide *;
    assert Ranked(Keys(b), 9) by { RankedOne("GIT_CONFIG_NOSYSTEM"); }
    KeysConcat(a, b);
    KeysConcat(a + b, c);
    KeysConcat(a + b + c, d);
    RankedConcat(Keys(a), Keys(b), 0);
    RankedConcat(Keys(a + b), Keys(c), 0);
    RankedConcat(Keys(a + b + c), Keys(d), 0);
  }

  lemma RankedOne(key: string)
    ensures Ranked([key], Rank(key))
  {
  }

  /** No key is overridden twice. */
  lemma PlanKeysDistinct(root: string, sha: string, e: Execution)
    requires e in Plan(root, sha)
    ensures Distinct(Keys(e.overrides))
  {
    PlanShape(root, sha, e);
    OverridesRanked(root, sha);
    var pdf := PdfOverrides(root, sha);
    PdfRanks(root, sha);
    assert AuditOverrides(root, sha) == Overrides(root, sha) + pdf;
    hide *;
    KeysConcat(Overrides(root, sha), pdf);
    RankedConcat(Keys(Overrides(root, sha)), Keys(pdf), 0);
    RankedDistinct(Keys(e.overrides));
  }

  lemma HomePlain()
    ensures AllPlain(["home"]) && Literal("home")
  {
  }

  /** Below a root that is not canonical the token of `HOME` expands to something else. */
  lemma HomeLost(root: string, sha: string)
    requires IsAbsolute(root) && CandidateSha(sha) && !Canonical(root)
    ensures var home := PathJoin(InstallRoot(root, sha), ["home"]);
            PortableValue(home, root).Ok? && TokenValue(PortableValue(home, root).value, Bare(root)) != Some(home)
  {
    assert "PWD" in Bare(root) && Bare(root)["PWD"] == root;
    hide *;
    HomePlain();
    OwnedToken(root, sha, ["home"], Bare(root));
    OwnedPath(root, sha, ["home"]);
    BelowCanonical(root, InstallSegments(sha) + ["home"]);
  }

  lemma HomeFirst(root: string, sha: string, e: Execution)
    requires e in Plan(root, sha)
    ensures e.overrides != [] && e.overrides[0].1 == PathJoin(InstallRoot(root, sha), ["home"])
  {
    PlanShape(root, sha, e);
    hide Plan, PathJoin, InstallRoot, Constants, OwnedCaches, PdfPython;
    assert Overrides(root, sha)[0].1 == PathJoin(InstallRoot(root, sha), ["home"]);
  }

  lemma PortableAt(e: Execution, root: string, i: nat)
    requires MakePortable(e, root).Ok? && i < |e.overrides|
    ensures var p := MakePortable(e, root).value;
            |p.overrides| == |e.overrides| && PortableValue(e.overrides[i].1, root) == Ok(p.overrides[i].1)
  {
    hide PortableValue;
    var p := MakePortable(e, root).value;
    assert Values(p.overrides)[i] == p.overrides[i].1 && Values(e.overrides)[i] == e.overrides[i].1;
  }

  /** In every shell that stands in the root the plan means what it says exactly when the root is canonical. */
  lemma PlanMeansExactly(root: string, sha: string, e: Execution)
    requires IsAbsolute(root) && CandidateSha(sha) && e in Plan(root, sha)
    requires forall v <- e.argv :: !Includes(v, root)
    ensures MakePortable(e, root).Ok? && FormatPortable(MakePortable(e, root).value).Ok?
    ensures Canonical(root) <==>
            forall host: Shell.Vars | "PWD" in host && host["PWD"] == root :: Replays(e, root, host)
  {
    PlanPrints(root, sha, e);
    assert "PWD" in Bare(root) && Bare(root)["PWD"] == root;
    hide *;
    if Canonical(root) {
      forall host: Shell.Vars | "PWD" in host && host["PWD"] == root
        ensures Replays(e, root, host)
      {
        PlanReplays(root, sha, e, host);
      }
    } else if Replays(e, root, Bare(root)) {
      PlanKeysDistinct(root, sha, e);
      ValuesKept(e, root);
      HomeFirst(root, sha, e);
      PortableAt(e, root, 0);
      HomeLost(root, sha);
      assert false;
    }
  }

  lemma KeysKept(e: Execution, root: string)
    requires MakePortable(e, root).Ok?
    requires forall x <- e.overrides :: OverrideKey(x.0)
    ensures forall x <- MakePortable(e, root).value.overrides :: OverrideKey(x.0)
    ensures MakePortable(e, root).value.inheritedKeys == e.inheritedKeys
  {
    hide OverrideKey;
    var p := MakePortable(e, root).value;
    forall i | 0 <= i < |p.overrides| ensures OverrideKey(p.overrides[i].0) {
      assert Keys(p.overrides)[i] == Keys(e.overrides)[i] && e.overrides[i] in e.overrides;
    }
  }

  /** The token of an owned path is the root, a slash and the way from the root to the path. */
  lemma OwnedToken(root: string, sha: string, parts: seq<string>, host: Shell.Vars)
    requires IsAbsolute(root) && CandidateSha(sha) && parts != [] && AllPlain(parts)
    requires forall part <- parts :: Literal(part)
    requires "PWD" in host && host["PWD"] == root
    ensures var home := PathJoin(InstallRoot(root, sha), parts);
            && PortableValue(home, root).Ok?
            && TokenValue(PortableValue(home, root).value, host)
               == Some(root + "/" + Join(InstallSegments(sha) + parts))
  {
    OwnedInside(root, sha, parts);
    LiteralBelow(sha, parts);
    hide PathJoin, InstallRoot, InstallSegments, Join, Literal, CandidateSha, AllPlain;
    var home := PathJoin(InstallRoot(root, sha), parts);
    NotInsideItself(root);
    AbsoluteToken(home, root, host);
    LiteralTail(Relative(root, home), host);
  }

  lemma NotInsideItself(root: string)
    ensures !IsPathInside(root, root)
  {
  }

  lemma SlashDoublesAny(sha: string, parts: seq<string>, host: Shell.Vars)
    requires CandidateSha(sha) && parts != [] && AllPlain(parts) && forall part <- parts :: Literal(part)
    requires "PWD" in host && host["PWD"] == "/"
    ensures var home := PathJoin(InstallRoot("/", sha), parts);
            && PortableValue(home, "/").Ok?
            && TokenValue(PortableValue(home, "/").value, host) == Some("/" + home)
  {
    assert Resolved("/") == [];
    hide PathJoin, InstallRoot, InstallSegments, Join, Literal, CandidateSha, AllPlain, PortableValue, TokenValue, Resolved;
    OwnedPath("/", sha, parts);
    OwnedToken("/", sha, parts, host);
    var below := InstallSegments(sha) + parts;
    assert [] + below == below;
    assert "/" + "/" + Join(below) == "/" + ("/" + Join(below));
  }

  /** Below `/`, which is not canonical, every owned path comes back with a second slash. */
  lemma SlashDoubles(sha: string)
    requires CandidateSha(sha)
    ensures var home := PathJoin(InstallRoot("/", sha), ["home"]);
            && PortableValue(home, "/").Ok?
            && TokenValue(PortableValue(home, "/").value, Bare("/")) == Some("/" + home)
  {
    hide PathJoin, InstallRoot, Literal, CandidateSha, AllPlain, PortableValue, TokenValue;
    HomePlain();
    SlashDoublesAny(sha, ["home"], Bare("/"));
  }
}
