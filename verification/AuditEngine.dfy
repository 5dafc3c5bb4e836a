/**
 The nightly audit as a state machine: asynchronous workers share a cursor over the pending
 suites, every result is followed by a serialized checkpoint write, and a process may die
 at any step and be resumed from the checkpoint on disk.
 */
module AuditEngine {
  import opened Common
  import opened AuditRow

  /** One audit run directory: what is selected, under which locked options. */
  datatype Config = Config(selected: seq<Suite>, source: Source, failFast: bool, concurrency: nat, deadlineMs: nat)

  datatype Worker = Idle | Running(suite: Suite) | Waiting(ticket: nat) | Stopped

  /** Workers run; untouched suites are filled in; the last write is awaited; the report is made. */
  datatype Phase = Working | Skipping | Draining | Finished

  /** One invocation of the runner. */
  datatype Process = Process(
    completed: seq<Row>, pending: seq<Suite>, deadlineAt: nat,
    cursor: nat, results: seq<Row>, failureSeen: bool, workers: seq<Worker>,
    enqueued: nat, written: nat, snapshot: Option<seq<Row>>,
    signal: Option<string>, phase: Phase)

  /**
   The run directory, the files in it, and the invocation that owns it, if one is alive. Between the
   creation of the directory and the first write of the inventory a fresh invocation is `starting`.
   `started` is history.
   */
  datatype World = World(
    created: bool, inventory: bool, starting: bool, checkpoint: Option<seq<Row>>,
    now: nat, started: seq<string>, process: Option<Process>)

  datatype Event =
    | Begin(resume: bool, logs: map<string, LogFile>)
    | WriteInventory
    | Take(worker: nat)
    | Record(worker: nat, outcome: Outcome)
    | Serialize
    | Rename
    | Acknowledge(worker: nat)
    | SkipOne
    | Close
    | Report
    | Signal(name: string)
    | Tick(ms: nat)
    | Die

  const INITIAL: World := World(false, false, false, None, 0, [], None)

  // ---- steps ----

  /** The inventory is in place; workers start. A signal noted before this is one that comes right after it. */
  function Launch(c: Config, w: World, completed: seq<Row>): World
  {
    var pending := Filter((s: Suite) => s.id !in Ids(completed), c.selected);
    w.(inventory := true, starting := false,
       process := Some(Process(completed, pending, w.now + c.deadlineMs, 0, completed, false,
                               seq(c.concurrency, _ => Idle), 0, 0, None, None, Working)))
  }

  /**
   A fresh run needs a new directory, which it makes first; a resume needs an old one with an inventory
   and, if there is a checkpoint, an acceptable one.
   */
  function BeginStep(c: Config, w: World, resume: bool, logs: map<string, LogFile>): World
  {
    if !resume then if w.created then w else w.(created := true, starting := true)
    else if !w.created || !w.inventory then w
    else if w.checkpoint.None? then Launch(c, w, [])
    else
      match Completed(w.checkpoint.value, {}, ById(c.selected), c.source, logs)
      case Err(_) => w
      case Ok(completed) => Launch(c, w, completed)
  }

  predicate StopsWorker(c: Config, w: World, p: Process)
  {
    p.signal.Some? || (c.failFast && p.failureSeen) || w.now >= p.deadlineAt || p.cursor >= |p.pending|
  }

  /** `nextSuite`, called by an idle worker. */
  function TakeStep(c: Config, w: World, p: Process, i: nat): World
    requires i < |p.workers|
  {
    if StopsWorker(c, w, p) then w.(process := Some(p.(workers := p.workers[i := Stopped])))
    else
      var suite := p.pending[p.cursor];
      w.(started := w.started + [suite.id],
         process := Some(p.(cursor := p.cursor + 1, workers := p.workers[i := Running(suite)])))
  }

  /** A worker has its row: push it, note a required failure, enqueue a checkpoint and wait for it. */
  function RecordStep(c: Config, w: World, p: Process, i: nat, outcome: Outcome): World
    requires i < |p.workers| && p.workers[i].Running?
  {
    var row := RowOf(p.workers[i].suite, c.source, p.signal, outcome);
    w.(process := Some(p.(
      results := p.results + [row],
      failureSeen := p.failureSeen || Bad(row),
      enqueued := p.enqueued + 1,
      workers := p.workers[i := Waiting(p.enqueued + 1)])))
  }

  function SkipReasonNow(w: World, p: Process): SkipReason
  {
    if p.signal.Some? then Interrupted(p.signal.value)
    else if w.now >= p.deadlineAt then TotalDeadline
    else FailFast
  }

  /** One turn of the loop over the suites that no worker took. */
  function SkipOneStep(c: Config, w: World, p: Process): World
    requires p.cursor < |p.pending|
  {
    var row := SkippedRow(p.pending[p.cursor], c.source, SkipReasonNow(w, p));
    w.(process := Some(p.(results := p.results + [row], cursor := p.cursor + 1, phase := Skipping)))
  }

  /** After that loop: one more write, unless this invocation added nothing. */
  function CloseStep(c: Config, w: World, p: Process): World
  {
    if |p.results| == |p.completed| then w.(process := Some(p.(phase := Finished)))
    else w.(process := Some(p.(enqueued := p.enqueued + 1, phase := Draining)))
  }

  /** Every worker has returned and the checkpoint chain is settled. */
  predicate Settled(p: Process)
  {
    && (p.phase == Working || p.phase == Skipping)
    && (forall worker <- p.workers :: worker.Stopped?)
    && p.written == p.enqueued
  }

  predicate Enabled(c: Config, w: World, e: Event)
  {
    match e
    case Begin(_, _) => w.process.None? && !w.starting
    case WriteInventory => w.starting
    case Tick(_) => true
    case Die => w.process.Some? || w.starting
    case Signal(_) => w.process.Some?
    case Take(i) =>
      w.process.Some? && i < |w.process.value.workers| && w.process.value.workers[i].Idle?
    case Record(i, outcome) =>
      && w.process.Some? && i < |w.process.value.workers| && w.process.value.workers[i].Running?
      && (outcome.WasInterrupted? ==> w.process.value.signal.Some?)
      && (outcome.WasExecuted? ==> Observable(outcome.end) && outcome.logPath != "")
    case Serialize =>
      w.process.Some? && w.process.value.snapshot.None? && w.process.value.written < w.process.value.enqueued
    case Rename => w.process.Some? && w.process.value.snapshot.Some?
    case Acknowledge(i) =>
      && w.process.Some? && i < |w.process.value.workers| && w.process.value.workers[i].Waiting?
      && w.process.value.workers[i].ticket <= w.process.value.written
    case SkipOne =>
      w.process.Some? && Settled(w.process.value) && w.process.value.cursor < |w.process.value.pending|
    case Close =>
      w.process.Some? && Settled(w.process.value) && w.process.value.cursor >= |w.process.value.pending|
    case Report =>
      w.process.Some? && w.process.value.phase == Draining && w.process.value.written == w.process.value.enqueued
  }

  function Step(c: Config, w: World, e: Event): World
  {
    if !Enabled(c, w, e) then w
    else
      match e
      case Begin(resume, logs) => BeginStep(c, w, resume, logs)
      case WriteInventory => Launch(c, w, [])
      case Tick(ms) => w.(now := w.now + ms)
      case Die => w.(starting := false, process := None)
      case Signal(name) =>
        var p := w.process.value;
        w.(process := Some(p.(signal := if p.signal.None? then Some(name) else p.signal)))
      case Take(i) => TakeStep(c, w, w.process.value, i)
      case Record(i, outcome) => RecordStep(c, w, w.process.value, i, outcome)
      case Serialize => w.(process := Some(w.process.value.(snapshot := Some(w.process.value.results))))
      case Rename =>
        var p := w.process.value;
        w.(checkpoint := p.snapshot, process := Some(p.(snapshot := None, written := p.written + 1)))
      case Acknowledge(i) =>
        var p := w.process.value;
        w.(process := Some(p.(workers := p.workers[i := Idle])))
      case SkipOne => SkipOneStep(c, w, w.process.value)
      case Close => CloseStep(c, w, w.process.value)
      case Report => w.(process := Some(w.process.value.(phase := Finished)))
  }

  /** Any sequence of events; an event that is not possible has no effect. */
  function Run(c: Config, w: World, events: seq<Event>): World
    decreases |events|
  {
    if events == [] then w else Run(c, Step(c, w, events[0]), events[1..])
  }
}
