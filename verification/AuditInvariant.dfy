/** What every step of the audit keeps, whatever the interleaving, the stop and the crash. */
module AuditInvariant {
  import opened Common
  import opened AuditRow
  import opened AuditEngine

  // ---- the ledger: every selected suite is recorded, running or pending, exactly once ----

  function One(worker: Worker, id: string): nat
  {
    if worker.Running? && worker.suite.id == id then 1 else 0
  }

  function RunningCount(workers: seq<Worker>, id: string): nat
  {
    if workers == [] then 0 else One(workers[0], id) + RunningCount(workers[1..], id)
  }

  lemma {:induction false} RunningUpdate(workers: seq<Worker>, i: nat, worker: Worker, id: string)
    requires i < |workers|
    ensures RunningCount(workers[i := worker], id) + One(workers[i], id) == RunningCount(workers, id) + One(worker, id)
  {
    var updated := workers[i := worker];
    if i == 0 {
      assert updated[1..] == workers[1..];
    } else {
      RunningUpdate(workers[1..], i - 1, worker, id);
      assert updated[1..] == workers[1..][i - 1 := worker];
    }
  }

  lemma {:induction false} NoneRunning(workers: seq<Worker>, id: string)
    requires forall worker <- workers :: !worker.Running?
    ensures RunningCount(workers, id) == 0
  {
    if workers != [] { NoneRunning(workers[1..], id); }
  }

  lemma {:induction false} RunningMember(workers: seq<Worker>, i: nat)
    requires i < |workers| && workers[i].Running?
    ensures RunningCount(workers, workers[i].suite.id) >= 1
  {
    if i > 0 { RunningMember(workers[1..], i - 1); }
  }

  /** How often a suite occurs among the recorded, the running and the untouched ones. */
  function Ledger(p: Process, id: string): nat
    requires p.cursor <= |p.pending|
  {
    multiset(Ids(p.results))[id] + RunningCount(p.workers, id) + multiset(SuiteIds(p.pending[p.cursor..]))[id]
  }

  // ---- invariants ----

  ghost predicate Valid(c: Config) { Distinct(SuiteIds(c.selected)) && c.concurrency >= 1 }

  /** The row belongs to a selected suite and carries its metadata. */
  ghost predicate Fits(c: Config, row: Row)
  {
    exists suite <- c.selected :: Describes(row, suite, c.source.revision)
  }

  ghost predicate Sound(c: Config, rows: seq<Row>)
  {
    Distinct(Ids(rows)) && forall row <- rows :: Fits(c, row)
  }

  /** The rows that a crash at this moment leaves behind, as far as this invocation is concerned. */
  function Durable(w: World, p: Process): seq<Row>
  {
    if p.written == 0 || w.checkpoint.None? then p.completed else w.checkpoint.value
  }

  ghost predicate Shape(c: Config, p: Process)
  {
    && |p.workers| == c.concurrency
    && p.cursor <= |p.pending|
    && p.completed <= p.results
    && p.pending == Filter((s: Suite) => s.id !in Ids(p.completed), c.selected)
    && (forall row <- p.results :: Fits(c, row))
    && (forall worker <- p.workers :: worker.Running? ==> worker.suite in c.selected)
    && (p.phase != Working ==> forall worker <- p.workers :: worker.Stopped?)
    && (p.phase == Draining || p.phase == Finished ==> p.cursor == |p.pending|)
  }

  ghost predicate Conserved(c: Config, p: Process)
    requires p.cursor <= |p.pending|
  {
    forall id :: Ledger(p, id) == multiset(SuiteIds(c.selected))[id]
  }

  predicate Open(p: Process) { p.phase == Working || p.phase == Skipping }

  /** How many rows the workers of this invocation recorded: each of them enqueued one write. */
  function Recordings(p: Process): nat
  {
    if Open(p) || p.enqueued == 0 then p.enqueued else p.enqueued - 1
  }

  /** A list serialized when at least `n` writes of this invocation were enqueued. */
  predicate Reaches(p: Process, rows: seq<Row>, n: nat)
  {
    rows <= p.results && |rows| >= |p.completed| + (if n <= Recordings(p) then n else Recordings(p))
  }

  /** What the checkpoint chain has put on disk. */
  ghost predicate OnDisk(checkpoint: Option<seq<Row>>, p: Process)
  {
    if p.written == 0 then
      match checkpoint
      case None => p.completed == []
      case Some(rows) => p.completed == Filter(Resumable, rows)
    else checkpoint.Some? && Reaches(p, checkpoint.value, p.written)
  }

  ghost predicate Writes(checkpoint: Option<seq<Row>>, p: Process)
  {
    && p.written <= p.enqueued
    && |p.results| >= |p.completed| + Recordings(p)
    && (p.phase == Working ==> |p.results| == |p.completed| + Recordings(p))
    && OnDisk(checkpoint, p)
    && (p.snapshot.Some? ==> p.written < p.enqueued && Reaches(p, p.snapshot.value, p.written + 1))
    && (p.written > 0 && p.snapshot.Some? ==> |checkpoint.value| <= |p.snapshot.value|)
    && (p.phase == Skipping ==> p.written == p.enqueued)
    && (!Open(p) ==>
          && p.enqueued <= p.written + 1
          && (p.snapshot.Some? ==> p.snapshot.value == p.results)
          && (p.written == p.enqueued > 0 ==> checkpoint == Some(p.results))
          && (p.enqueued == 0 ==> p.results == p.completed))
    && (p.phase == Finished ==> p.written == p.enqueued && p.snapshot.None?)
  }

  /** Every enqueued write that is still outstanding has a worker waiting for it. */
  ghost predicate Awaited(p: Process)
  {
    p.phase == Working ==> forall t :: p.written < t <= p.enqueued ==> Waiting(t) in p.workers
  }

  ghost predicate ProcessInv(c: Config, w: World, p: Process)
  {
    Shape(c, p) && Conserved(c, p) && Writes(w.checkpoint, p) && Awaited(p)
  }

  ghost predicate Inv(c: Config, w: World)
  {
    && (w.inventory ==> w.created)
    && (w.starting ==> w.created && !w.inventory)
    && (w.checkpoint.Some? ==> w.inventory && Sound(c, w.checkpoint.value))
    && (w.process.Some? ==> w.inventory && !w.starting && ProcessInv(c, w, w.process.value))
  }

  // ---- consequences of the ledger ----

  lemma SelectedOnce(c: Config)
    requires Valid(c)
    ensures forall id :: multiset(SuiteIds(c.selected))[id] <= 1
  {
    DistinctCount(SuiteIds(c.selected));
  }

  /** No suite is recorded twice. */
  lemma ResultsSound(c: Config, p: Process)
    requires Valid(c) && Shape(c, p) && Conserved(c, p)
    ensures Sound(c, p.results)
  {
    SelectedOnce(c);
    forall id | id in Ids(p.results)
      ensures multiset(Ids(p.results))[id] == 1
    {
      assert multiset(Ids(p.results))[id] <= multiset(SuiteIds(c.selected))[id];
    }
    CountDistinct(Ids(p.results));
  }

  lemma PrefixSound(c: Config, rows: seq<Row>, all: seq<Row>)
    requires rows <= all && Sound(c, all)
    ensures Sound(c, rows)
  {
    assert forall i :: 0 <= i < |rows| ==> Ids(rows)[i] == Ids(all)[i];
    assert forall i :: 0 <= i < |rows| ==> rows[i] == all[i];
  }

  /** A recorded suite is neither running nor still pending. */
  lemma RecordedIsSettled(c: Config, p: Process, row: Row)
    requires Valid(c) && Shape(c, p) && Conserved(c, p) && row in p.results
    ensures RunningCount(p.workers, row.id) == 0
    ensures row.id !in SuiteIds(p.pending[p.cursor..])
  {
    SelectedOnce(c);
    var i :| 0 <= i < |p.results| && p.results[i] == row;
    assert Ids(p.results)[i] == row.id && row.id in multiset(Ids(p.results));
    assert Ledger(p, row.id) <= 1;
  }

  lemma {:induction false} PendingCount(c: Config, completed: seq<Row>, suites: seq<Suite>, id: string)
    ensures multiset(SuiteIds(Filter((s: Suite) => s.id !in Ids(completed), suites)))[id] ==
            if id in Ids(completed) then 0 else multiset(SuiteIds(suites))[id]
  {
    if suites != [] {
      PendingCount(c, completed, suites[1..], id);
      hide Ids, SuiteIds;
      OneMoreSuite(suites, id);
      var open := (s: Suite) => s.id !in Ids(completed);
      if open(suites[0]) {
        assert Filter(open, suites)[1..] == Filter(open, suites[1..]);
        OneMoreSuite(Filter(open, suites), id);
      }
    }
  }

  lemma OneMoreSuite(suites: seq<Suite>, id: string)
    requires suites != []
    ensures multiset(SuiteIds(suites))[id] ==
            (if suites[0].id == id then 1 else 0) + multiset(SuiteIds(suites[1..]))[id]
  {
    assert SuiteIds(suites) == [suites[0].id] + SuiteIds(suites[1..]);
  }

  lemma FitsSelected(c: Config, row: Row)
    requires Fits(c, row)
    ensures row.id in SuiteIds(c.selected)
  {
    var suite :| suite in c.selected && Describes(row, suite, c.source.revision);
    var i :| 0 <= i < |c.selected| && c.selected[i] == suite;
    assert SuiteIds(c.selected)[i] == suite.id;
  }

  /** Accepted rows and the remaining suites make up the selection. */
  lemma LaunchLedger(c: Config, completed: seq<Row>)
    requires Valid(c) && Sound(c, completed)
    ensures multiset(Ids(completed))
            + multiset(SuiteIds(Filter((s: Suite) => s.id !in Ids(completed), c.selected)))
            == multiset(SuiteIds(c.selected))
  {
    var pending := Filter((s: Suite) => s.id !in Ids(completed), c.selected);
    DistinctCount(Ids(completed));
    DistinctCount(SuiteIds(c.selected));
    forall id
      ensures multiset(Ids(completed))[id] + multiset(SuiteIds(pending))[id] == multiset(SuiteIds(c.selected))[id]
    {
      PendingCount(c, completed, c.selected, id);
      if id in Ids(completed) {
        var i :| 0 <= i < |completed| && Ids(completed)[i] == id;
        FitsSelected(c, completed[i]);
      }
    }
  }

  // ---- every step keeps the invariant ----

  lemma LaunchKeeps(c: Config, w: World, completed: seq<Row>)
    requires Valid(c) && Inv(c, w) && w.created && Sound(c, completed)
    requires match w.checkpoint case None => completed == [] case Some(rows) => completed == Filter(Resumable, rows)
    ensures Inv(c, Launch(c, w, completed))
  {
    var p := Launch(c, w, completed).process.value;
    LaunchLedger(c, completed);
    assert p.pending[0..] == p.pending;
    forall id ensures RunningCount(p.workers, id) == 0 { NoneRunning(p.workers, id); }
  }

  lemma FilterSound(c: Config, rows: seq<Row>)
    requires Sound(c, rows)
    ensures Sound(c, Filter(Resumable, rows))
  {
    var kept := Filter(Resumable, rows);
    forall id | id in Ids(kept)
      ensures multiset(Ids(kept))[id] == 1
    {
      DistinctCount(Ids(rows));
      KeptCount(rows, id);
    }
    CountDistinct(Ids(kept));
  }

  lemma {:induction false} KeptCount(rows: seq<Row>, id: string)
    ensures multiset(Ids(Filter(Resumable, rows)))[id] <= multiset(Ids(rows))[id]
  {
    if rows != [] {
      KeptCount(rows[1..], id);
      hide Ids;
      OneMoreRow(rows, id);
      if Resumable(rows[0]) {
        assert Filter(Resumable, rows)[1..] == Filter(Resumable, rows[1..]);
        OneMoreRow(Filter(Resumable, rows), id);
      }
    }
  }

  lemma OneMoreRow(rows: seq<Row>, id: string)
    requires rows != []
    ensures multiset(Ids(rows))[id] == (if rows[0].id == id then 1 else 0) + multiset(Ids(rows[1..]))[id]
  {
    assert Ids(rows) == [rows[0].id] + Ids(rows[1..]);
  }

  lemma StartKeeps(c: Config, w: World)
    requires Valid(c) && Inv(c, w) && w.starting
    ensures Inv(c, Launch(c, w, []))
  {
    assert Ids([]) == [];
    LaunchKeeps(c, w, []);
  }

  lemma BeginKeeps(c: Config, w: World, resume: bool, logs: map<string, LogFile>)
    requires Valid(c) && Inv(c, w) && w.process.None?
    ensures Inv(c, BeginStep(c, w, resume, logs))
  {
    assert Ids([]) == [];
    if resume && w.inventory {
      match w.checkpoint
      case None => LaunchKeeps(c, w, []);
      case Some(rows) =>
        var r := Completed(rows, {}, ById(c.selected), c.source, logs);
        if r.Ok? {
          CompletedRows(rows, {}, ById(c.selected), c.source, logs);
          FilterSound(c, rows);
          LaunchKeeps(c, w, r.value);
        }
    }
  }

  /** Only a waiting worker answers for a write, so replacing another one loses nothing. */
  lemma AwaitedKept(p: Process, i: nat, worker: Worker)
    requires Awaited(p) && i < |p.workers|
    requires p.workers[i].Waiting? ==> p.workers[i].ticket <= p.written
    ensures Awaited(p.(workers := p.workers[i := worker]))
  {
    var workers := p.workers[i := worker];
    forall t | p.phase == Working && p.written < t <= p.enqueued
      ensures Waiting(t) in workers
    {
      var j :| 0 <= j < |p.workers| && p.workers[j] == Waiting(t);
      assert workers[j] == Waiting(t);
    }
  }

  lemma StopKeeps(c: Config, w: World, p: Process, i: nat, worker: Worker)
    requires ProcessInv(c, w, p) && p.phase == Working && i < |p.workers|
    requires worker.Idle? || worker.Stopped?
    requires p.workers[i].Idle? || (p.workers[i].Waiting? && p.workers[i].ticket <= p.written)
    ensures ProcessInv(c, w, p.(workers := p.workers[i := worker]))
  {
    var p' := p.(workers := p.workers[i := worker]);
    forall id ensures Ledger(p', id) == Ledger(p, id) { RunningUpdate(p.workers, i, worker, id); }
    AwaitedKept(p, i, worker);
  }

  function Taken(p: Process, i: nat): Process
    requires i < |p.workers| && p.cursor < |p.pending|
  {
    p.(cursor := p.cursor + 1, workers := p.workers[i := Running(p.pending[p.cursor])])
  }

  lemma TakeLedger(p: Process, i: nat, id: string)
    requires i < |p.workers| && !p.workers[i].Running? && p.cursor < |p.pending|
    ensures Ledger(Taken(p, i), id) == Ledger(p, id)
  {
    var suite := p.pending[p.cursor];
    RunningUpdate(p.workers, i, Running(suite), id);
    var rest := p.pending[p.cursor..];
    assert rest[1..] == p.pending[p.cursor + 1..];
    assert SuiteIds(rest) == [suite.id] + SuiteIds(rest[1..]);
  }

  lemma TakeShape(c: Config, p: Process, i: nat)
    requires Shape(c, p) && p.phase == Working && i < |p.workers| && p.cursor < |p.pending|
    ensures Shape(c, Taken(p, i))
  {
    assert p.pending[p.cursor] in p.pending;
    var workers := Taken(p, i).workers;
    forall j | 0 <= j < |workers| && workers[j].Running? ensures workers[j].suite in c.selected {
      assert j != i ==> workers[j] == p.workers[j] && p.workers[j] in p.workers;
    }
  }

  lemma TakeKeeps(c: Config, w: World, p: Process, i: nat)
    requires Valid(c) && Inv(c, w) && w.process == Some(p)
    requires i < |p.workers| && p.workers[i].Idle?
    ensures Inv(c, TakeStep(c, w, p, i))
  {
    assert p.workers[i] in p.workers && p.phase == Working;
    if StopsWorker(c, w, p) {
      StopKeeps(c, w, p, i, Stopped);
    } else {
      forall id ensures Ledger(Taken(p, i), id) == Ledger(p, id) { TakeLedger(p, i, id); }
      TakeShape(c, p, i);
      AwaitedKept(p, i, Running(p.pending[p.cursor]));
    }
  }

  lemma RowOfFits(c: Config, suite: Suite, signal: Option<string>, outcome: Outcome)
    requires suite in c.selected
    ensures RowOf(suite, c.source, signal, outcome).id == suite.id
    ensures Fits(c, RowOf(suite, c.source, signal, outcome))
  {
    assert Describes(RowOf(suite, c.source, signal, outcome), suite, c.source.revision);
  }

  function Recorded(p: Process, i: nat, row: Row): Process
    requires i < |p.workers|
  {
    p.(results := p.results + [row],
       failureSeen := p.failureSeen || Bad(row),
       enqueued := p.enqueued + 1,
       workers := p.workers[i := Waiting(p.enqueued + 1)])
  }

  lemma RecordLedger(p: Process, i: nat, row: Row, id: string)
    requires p.cursor <= |p.pending|
    requires i < |p.workers| && p.workers[i].Running? && row.id == p.workers[i].suite.id
    ensures Ledger(Recorded(p, i, row), id) == Ledger(p, id)
  {
    RunningUpdate(p.workers, i, Waiting(p.enqueued + 1), id);
    assert Ids(p.results + [row]) == Ids(p.results) + [row.id];
  }

  lemma RecordShape(c: Config, p: Process, i: nat, row: Row)
    requires Shape(c, p) && p.phase == Working && i < |p.workers| && Fits(c, row)
    ensures Shape(c, Recorded(p, i, row))
  {
    hide Fits;
    var workers := Recorded(p, i, row).workers;
    forall j | 0 <= j < |workers| && workers[j].Running? ensures workers[j].suite in c.selected {
      assert workers[j] == p.workers[j] && p.workers[j] in p.workers;
    }
  }

  lemma RecordWrites(checkpoint: Option<seq<Row>>, p: Process, i: nat, row: Row)
    requires Writes(checkpoint, p) && p.phase == Working && i < |p.workers|
    ensures Writes(checkpoint, Recorded(p, i, row))
  {
    hide Filter;
    assert p.results <= p.results + [row];
  }

  lemma RecordAwaited(p: Process, i: nat, row: Row)
    requires Awaited(p) && p.phase == Working && i < |p.workers| && p.workers[i].Running?
    ensures Awaited(Recorded(p, i, row))
  {
    var workers := p.workers[i := Waiting(p.enqueued + 1)];
    forall t | p.written < t <= p.enqueued + 1
      ensures Waiting(t) in workers
    {
      if t == p.enqueued + 1 {
        assert workers[i] == Waiting(t);
      } else {
        var j :| 0 <= j < |p.workers| && p.workers[j] == Waiting(t);
        assert workers[j] == Waiting(t);
      }
    }
  }

  lemma RecordKeeps(c: Config, w: World, p: Process, i: nat, outcome: Outcome)
    requires Valid(c) && Inv(c, w) && w.process == Some(p)
    requires i < |p.workers| && p.workers[i].Running?
    ensures Inv(c, RecordStep(c, w, p, i, outcome))
  {
    assert p.workers[i] in p.workers && p.phase == Working;
    var row := RowOf(p.workers[i].suite, c.source, p.signal, outcome);
    RowOfFits(c, p.workers[i].suite, p.signal, outcome);
    hide Shape, Writes, Awaited;
    forall id ensures Ledger(Recorded(p, i, row), id) == Ledger(p, id) { RecordLedger(p, i, row, id); }
    RecordShape(c, p, i, row);
    RecordWrites(w.checkpoint, p, i, row);
    RecordAwaited(p, i, row);
    assert RecordStep(c, w, p, i, outcome).process == Some(Recorded(p, i, row));
  }

  lemma SkipOneKeeps(c: Config, w: World, p: Process)
    requires Valid(c) && Inv(c, w) && w.process == Some(p) && Enabled(c, w, SkipOne)
    ensures Inv(c, SkipOneStep(c, w, p))
  {
    hide Shape, Writes, Awaited;
    var suite := p.pending[p.cursor];
    var row := SkippedRow(suite, c.source, SkipReasonNow(w, p));
    var p' := SkipOneStep(c, w, p).process.value;
    assert p' == Filled(p, row);
    FillShape(c, p, row);
    FillWrites(w.checkpoint, p, row);
    forall id ensures Ledger(p', id) == Ledger(p, id) { FillLedger(p, row, id); }
    assert Awaited(p') by { Unawaited(p'); }
  }

  lemma Unawaited(p: Process)
    requires p.phase != Working
    ensures Awaited(p)
  {
  }

  function Filled(p: Process, row: Row): Process
  {
    p.(results := p.results + [row], cursor := p.cursor + 1, phase := Skipping)
  }

  lemma FillLedger(p: Process, row: Row, id: string)
    requires p.cursor < |p.pending| && row.id == p.pending[p.cursor].id
    ensures Ledger(Filled(p, row), id) == Ledger(p, id)
  {
    var rest := p.pending[p.cursor..];
    assert rest[1..] == p.pending[p.cursor + 1..];
    assert SuiteIds(rest) == [row.id] + SuiteIds(rest[1..]);
    assert Ids(p.results + [row]) == Ids(p.results) + [row.id];
  }

  lemma FillShape(c: Config, p: Process, row: Row)
    requires Shape(c, p) && Settled(p) && p.cursor < |p.pending|
    requires Describes(row, p.pending[p.cursor], c.source.revision)
    ensures Shape(c, Filled(p, row))
  {
    assert p.pending[p.cursor] in p.pending;
    assert Fits(c, row);
    hide Fits;
  }

  lemma FillWrites(checkpoint: Option<seq<Row>>, p: Process, row: Row)
    requires Writes(checkpoint, p) && Settled(p)
    ensures Writes(checkpoint, Filled(p, row))
  {
    hide Filter;
    assert p.results <= p.results + [row];
  }

  lemma CloseKeeps(c: Config, w: World, p: Process)
    requires Valid(c) && Inv(c, w) && w.process == Some(p) && Enabled(c, w, Close)
    ensures Inv(c, CloseStep(c, w, p))
  {
    var p' := CloseStep(c, w, p).process.value;
    if |p.results| == |p.completed| { assert p.results == p.completed; }
    forall id ensures Ledger(p', id) == Ledger(p, id) { }
  }

  lemma RenameKeeps(c: Config, w: World, p: Process)
    requires Valid(c) && Inv(c, w) && w.process == Some(p) && p.snapshot.Some?
    ensures Inv(c, Step(c, w, Rename))
  {
    var p' := Step(c, w, Rename).process.value;
    hide Shape, Writes, Sound, Fits;
    RenameWrites(w.checkpoint, p);
    ShapeKept(c, p, p');
    ResultsSound(c, p);
    PrefixSound(c, p.snapshot.value, p.results);
    CursorInRange(c, p);
    forall id ensures Ledger(p', id) == Ledger(p, id) { }
  }

  lemma CursorInRange(c: Config, p: Process)
    requires Shape(c, p)
    ensures p.cursor <= |p.pending|
  {
  }

  lemma RenameWrites(checkpoint: Option<seq<Row>>, p: Process)
    requires Writes(checkpoint, p) && p.snapshot.Some?
    ensures p.snapshot.value <= p.results
    ensures Writes(p.snapshot, p.(snapshot := None, written := p.written + 1))
  {
    hide Filter;
  }

  lemma ShapeKept(c: Config, p: Process, p': Process)
    requires Shape(c, p) && p' == p.(snapshot := p'.snapshot, written := p'.written)
    ensures Shape(c, p')
  {
  }

  lemma StepKeeps(c: Config, w: World, e: Event)
    requires Valid(c) && Inv(c, w)
    ensures Inv(c, Step(c, w, e))
  {
    hide Shape, Conserved, Writes, Awaited, BeginStep, TakeStep, RecordStep, SkipOneStep, CloseStep;
    if Enabled(c, w, e) {
      match e
      case Begin(resume, logs) => BeginKeeps(c, w, resume, logs);
      case WriteInventory => StartKeeps(c, w);
      case Take(i) => TakeKeeps(c, w, w.process.value, i);
      case Record(i, outcome) => RecordKeeps(c, w, w.process.value, i, outcome);
      case Rename => RenameKeeps(c, w, w.process.value);
      case Acknowledge(i) =>
        AcknowledgeKeeps(c, w, i);
      case SkipOne => SkipOneKeeps(c, w, w.process.value);
      case Close => CloseKeeps(c, w, w.process.value);
      case Serialize => SerializeKeeps(c, w, w.process.value);
      case Report => ReportKeeps(c, w, w.process.value);
      case Signal(_) => SignalKeeps(c, w, w.process.value, Step(c, w, e).process.value);
      case Tick(_) =>
      case Die =>
    }
  }

  lemma AcknowledgeKeeps(c: Config, w: World, i: nat)
    requires Valid(c) && Inv(c, w) && Enabled(c, w, Acknowledge(i))
    ensures Inv(c, Step(c, w, Acknowledge(i)))
  {
    var p := w.process.value;
    hide Conserved, Writes, Awaited;
    assert p.workers[i] in p.workers;
    StopKeeps(c, w, p, i, Idle);
  }

  lemma SerializeKeeps(c: Config, w: World, p: Process)
    requires ProcessInv(c, w, p) && p.snapshot.None? && p.written < p.enqueued
    ensures ProcessInv(c, w, p.(snapshot := Some(p.results)))
  {
    var p' := p.(snapshot := Some(p.results));
    forall id ensures Ledger(p', id) == Ledger(p, id) { }
  }

  lemma ReportKeeps(c: Config, w: World, p: Process)
    requires ProcessInv(c, w, p) && p.phase == Draining && p.written == p.enqueued
    ensures ProcessInv(c, w, p.(phase := Finished))
  {
    var p' := p.(phase := Finished);
    forall id ensures Ledger(p', id) == Ledger(p, id) { }
  }

  lemma SignalKeeps(c: Config, w: World, p: Process, p': Process)
    requires ProcessInv(c, w, p) && p' == p.(signal := p'.signal)
    ensures ProcessInv(c, w, p')
  {
    forall id ensures Ledger(p', id) == Ledger(p, id) { }
  }

  lemma {:induction false} RunKeeps(c: Config, w: World, events: seq<Event>)
    requires Valid(c) && Inv(c, w)
    ensures Inv(c, Run(c, w, events))
    decreases |events|
  {
    if events != [] {
      StepKeeps(c, w, events[0]);
      RunKeeps(c, Step(c, w, events[0]), events[1..]);
    }
  }
}
