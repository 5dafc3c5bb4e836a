/** Why an invocation stops, what a fail-fast stop bounds, and the order of results. */
module AuditStops {
  import opened Common
  import opened AuditRow
  import opened AuditEngine
  import opened AuditInvariant

  // ---- stop reasons are true ----

  /** A stop condition that, once met, stays met for the rest of the invocation. */
  predicate Justified(c: Config, w: World, p: Process, reason: SkipReason)
  {
    match reason
    case Interrupted(signal) => p.signal == Some(signal)
    case TotalDeadline => w.now >= p.deadlineAt
    case FailFast => c.failFast && p.failureSeen
  }

  ghost predicate HasBad(rows: seq<Row>) { exists row <- rows :: Bad(row) }

  /** The rows that follow the first required failure. */
  function AfterBad(rows: seq<Row>): seq<Row>
  {
    if rows == [] then [] else if Bad(rows[0]) then rows[1..] else AfterBad(rows[1..])
  }

  lemma {:induction false} AfterBadAppend(rows: seq<Row>, more: seq<Row>)
    ensures AfterBad(rows + more) == if HasBad(rows) then AfterBad(rows) + more else AfterBad(more)
  {
    if rows == [] {
      assert rows + more == more;
    } else {
      assert (rows + more)[1..] == rows[1..] + more;
      AfterBadAppend(rows[1..], more);
      assert rows == [rows[0]] + rows[1..];
      assert HasBad(rows) == (Bad(rows[0]) || HasBad(rows[1..]));
    }
  }

  function Busy(workers: seq<Worker>): nat
  {
    if workers == [] then 0 else (if workers[0].Running? then 1 else 0) + Busy(workers[1..])
  }

  lemma {:induction false} BusyUpdate(workers: seq<Worker>, i: nat, worker: Worker)
    requires i < |workers|
    ensures Busy(workers[i := worker]) + (if workers[i].Running? then 1 else 0)
            == Busy(workers) + (if worker.Running? then 1 else 0)
    ensures Busy(workers) <= |workers|
  {
    var updated := workers[i := worker];
    if i == 0 {
      assert updated[1..] == workers[1..];
      BusyBound(workers[1..]);
    } else {
      assert updated[1..] == workers[1..][i - 1 := worker];
      BusyUpdate(workers[1..], i - 1, worker);
    }
  }

  lemma {:induction false} BusyBound(workers: seq<Worker>)
    ensures Busy(workers) <= |workers|
  {
    if workers != [] { BusyBound(workers[1..]); }
  }

  /** The rows of this invocation that workers recorded, and the ones filled in afterwards. */
  function ByWorkers(p: Process): seq<Row>
    requires |p.completed| + Recordings(p) <= |p.results|
  {
    p.results[|p.completed|..|p.completed| + Recordings(p)]
  }

  function FilledIn(p: Process): seq<Row>
    requires |p.completed| + Recordings(p) <= |p.results|
  {
    p.results[|p.completed| + Recordings(p)..]
  }

  ghost predicate FailureInv(c: Config, p: Process)
    requires |p.completed| + Recordings(p) <= |p.results|
  {
    && p.failureSeen == HasBad(ByWorkers(p))
    && (c.failFast && p.failureSeen ==> |AfterBad(ByWorkers(p))| + Busy(p.workers) < c.concurrency)
  }

  /** The row says that the suite was left out, for a reason that holds. */
  predicate TrulySkipped(c: Config, w: World, p: Process, row: Row, suite: Suite)
  {
    && row.skipReason.Some?
    && row == SkippedRow(suite, c.source, row.skipReason.value)
    && Justified(c, w, p, row.skipReason.value)
  }

  ghost predicate AllTrulySkipped(c: Config, w: World, p: Process, rows: seq<Row>, suites: seq<Suite>)
  {
    && |rows| == |suites|
    && forall i :: 0 <= i < |rows| ==> TrulySkipped(c, w, p, rows[i], suites[i])
  }

  /** The last suites before the cursor are the ones that were filled in. */
  function LeftOut(p: Process): seq<Suite>
    requires |p.completed| + Recordings(p) <= |p.results| && |FilledIn(p)| <= p.cursor <= |p.pending|
  {
    p.pending[p.cursor - |FilledIn(p)|..p.cursor]
  }

  ghost predicate StopInv(c: Config, w: World, p: Process)
    requires |p.completed| + Recordings(p) <= |p.results|
  {
    && |FilledIn(p)| <= p.cursor <= |p.pending|
    && ((exists worker <- p.workers :: worker.Stopped?) ==> StopsWorker(c, w, p))
    && AllTrulySkipped(c, w, p, FilledIn(p), LeftOut(p))
  }

  ghost predicate Fine(c: Config, w: World, p: Process)
  {
    |p.completed| + Recordings(p) <= |p.results| && FailureInv(c, p) && StopInv(c, w, p)
  }

  ghost predicate Disciplined(c: Config, w: World) { w.process.Some? ==> Fine(c, w, w.process.value) }

  /** The few consequences of the other invariants that this one rests on. */
  lemma Basics(c: Config, p: Process)
    requires Shape(c, p)
    ensures |p.workers| == c.concurrency && p.cursor <= |p.pending|
    ensures forall worker <- p.workers :: !worker.Stopped? ==> p.phase == Working
  {
  }

  lemma WorkingSize(checkpoint: Option<seq<Row>>, p: Process)
    requires Writes(checkpoint, p)
    ensures |p.completed| + Recordings(p) <= |p.results|
    ensures p.phase == Working ==> |p.results| == |p.completed| + Recordings(p)
    ensures p.phase == Working ==> Recordings(p) == p.enqueued
  {
  }

  // ---- recording, taking and stopping keep both ----

  lemma RecordFailure(c: Config, p: Process, i: nat, row: Row)
    requires |p.results| == |p.completed| + Recordings(p) && FailureInv(c, p) && p.phase == Working
    requires |p.workers| == c.concurrency
    requires i < |p.workers| && p.workers[i].Running?
    ensures FailureInv(c, Recorded(p, i, row))
  {
    var p' := Recorded(p, i, row);
    assert ByWorkers(p') == ByWorkers(p) + [row];
    AfterBadAppend(ByWorkers(p), [row]);
    BusyUpdate(p.workers, i, Waiting(p.enqueued + 1));
    assert HasBad([row]) == Bad(row) && AfterBad([row]) == [];
    assert HasBad(ByWorkers(p')) == (HasBad(ByWorkers(p)) || Bad(row));
  }

  lemma WorkersFailure(c: Config, p: Process, p': Process, i: nat, worker: Worker)
    requires |p.completed| + Recordings(p) <= |p.results| && FailureInv(c, p) && i < |p.workers|
    requires p' == p.(cursor := p'.cursor, workers := p.workers[i := worker]) && p.phase == Working
    requires worker.Running? ==> !(c.failFast && p.failureSeen)
    ensures FailureInv(c, p')
  {
    BusyUpdate(p.workers, i, worker);
  }

  /** No later state of the invocation takes a reason back. */
  lemma SkipsStayTrue(c: Config, w: World, p: Process, w': World, p': Process, rows: seq<Row>, suites: seq<Suite>)
    requires AllTrulySkipped(c, w, p, rows, suites)
    requires w.now <= w'.now && p.deadlineAt == p'.deadlineAt && (p.failureSeen ==> p'.failureSeen)
    requires p.signal.Some? ==> p'.signal == p.signal
    ensures AllTrulySkipped(c, w', p', rows, suites)
  {
    forall i | 0 <= i < |rows| ensures TrulySkipped(c, w', p', rows[i], suites[i]) {
      assert TrulySkipped(c, w, p, rows[i], suites[i]);
    }
  }

  lemma FillOne(p: Process, row: Row)
    requires Settled(p) && p.cursor < |p.pending|
    requires |p.completed| + Recordings(p) <= |p.results| && |FilledIn(p)| <= p.cursor
    ensures var p' := Filled(p, row);
            && |p'.completed| + Recordings(p') <= |p'.results| && |FilledIn(p')| <= p'.cursor
            && ByWorkers(p') == ByWorkers(p) && FilledIn(p') == FilledIn(p) + [row]
            && LeftOut(p') == LeftOut(p) + [p.pending[p.cursor]]
  {
  }

  lemma SkipOneDisciplined(c: Config, w: World)
    requires Valid(c) && Inv(c, w) && Disciplined(c, w) && Enabled(c, w, SkipOne)
    ensures Disciplined(c, Step(c, w, SkipOne))
  {
    var p := w.process.value;
    hide Shape, Conserved, Writes, Awaited, Fine, SkippedRow;
    Basics(c, p);
    FillFine(c, w, p, Step(c, w, SkipOne));
  }

  lemma CloseDisciplined(c: Config, w: World)
    requires Valid(c) && Inv(c, w) && Disciplined(c, w) && Enabled(c, w, Close)
    ensures Disciplined(c, Step(c, w, Close))
  {
    hide Inv, Fine;
    CloseFine(c, w, w.process.value, Step(c, w, Close));
  }

  lemma SameRows(p: Process, p': Process)
    requires |p.completed| + Recordings(p) <= |p.results| && Settled(p)
    requires p' == p.(enqueued := p.enqueued + 1, phase := Draining) || p' == p.(phase := Finished)
    requires p'.phase == Finished ==> |p.results| == |p.completed|
    ensures Recordings(p') == Recordings(p) && ByWorkers(p') == ByWorkers(p) && FilledIn(p') == FilledIn(p)
    ensures |FilledIn(p)| <= p.cursor <= |p.pending| ==> LeftOut(p') == LeftOut(p)
  {
  }

  lemma CloseFine(c: Config, w: World, p: Process, w': World)
    requires Fine(c, w, p) && Settled(p) && w'.now == w.now && w'.process == CloseStep(c, w, p).process
    ensures w'.process.Some? && Fine(c, w', w'.process.value)
  {
    var p' := w'.process.value;
    SameRows(p, p');
    hide ByWorkers, FilledIn, LeftOut, AfterBad, HasBad, AllTrulySkipped;
    SkipsStayTrue(c, w, p, w', p', FilledIn(p), LeftOut(p));
  }

  lemma FillFine(c: Config, w: World, p: Process, w': World)
    requires Fine(c, w, p) && Settled(p) && p.cursor < |p.pending| && |p.workers| >= 1
    requires w'.now == w.now
    ensures Fine(c, w', Filled(p, SkippedRow(p.pending[p.cursor], c.source, SkipReasonNow(w, p))))
  {
    var suite := p.pending[p.cursor];
    var row := SkippedRow(suite, c.source, SkipReasonNow(w, p));
    var p' := Filled(p, row);
    assert p.workers[0] in p.workers;
    FillOne(p, row);
    hide ByWorkers, FilledIn, LeftOut, AfterBad, HasBad, AllTrulySkipped;
    SkipsStayTrue(c, w, p, w', p', FilledIn(p), LeftOut(p));
    assert TrulySkipped(c, w', p', row, suite);
    SkipsAppend(c, w', p', FilledIn(p), LeftOut(p), row, suite);
  }

  lemma SkipsAppend(c: Config, w: World, p: Process, rows: seq<Row>, suites: seq<Suite>, row: Row, suite: Suite)
    requires AllTrulySkipped(c, w, p, rows, suites) && TrulySkipped(c, w, p, row, suite)
    ensures AllTrulySkipped(c, w, p, rows + [row], suites + [suite])
  {
    hide TrulySkipped;
  }

  lemma StopPersists(c: Config, w: World, p: Process, p': Process, i: nat, worker: Worker)
    requires |p.results| == |p.completed| + Recordings(p) && StopInv(c, w, p) && i < |p.workers| && p.phase == Working && p.cursor <= p'.cursor <= |p.pending|
    requires p' == p.(cursor := p'.cursor, workers := p.workers[i := worker], results := p'.results,
                      enqueued := p'.enqueued, failureSeen := p'.failureSeen)
    requires |p'.results| == |p'.completed| + Recordings(p') && (p.failureSeen ==> p'.failureSeen)
    requires worker.Stopped? ==> StopsWorker(c, w, p)
    ensures StopInv(c, w, p')
  {
    forall stopped <- p'.workers | stopped.Stopped?
      ensures StopsWorker(c, w, p')
    {
      assert stopped == worker || stopped in p.workers;
    }
  }

  lemma TakeDisciplined(c: Config, w: World, i: nat)
    requires Inv(c, w) && Disciplined(c, w) && Enabled(c, w, Take(i))
    ensures Disciplined(c, Step(c, w, Take(i)))
  {
    var p := w.process.value;
    var w' := Step(c, w, Take(i));
    hide Shape, Conserved, Writes, Awaited, FailureInv, StopInv;
    Basics(c, p);
    WorkingSize(w.checkpoint, p);
    assert p.workers[i] in p.workers && p.phase == Working;
    hide Inv, Step;
    TakeFine(c, w, p, i, w');
  }

  lemma TakeFine(c: Config, w: World, p: Process, i: nat, w': World)
    requires p.phase == Working && |p.results| == |p.completed| + Recordings(p) && p.cursor <= |p.pending|
    requires i < |p.workers| == c.concurrency && p.workers[i].Idle? && w' == TakeStep(c, w, p, i)
    requires FailureInv(c, p) && StopInv(c, w, p)
    ensures w'.process.Some? && Fine(c, w', w'.process.value)
  {
    var p' := w'.process.value;
    hide FailureInv, StopInv;
    WorkersFailure(c, p, p', i, p'.workers[i]);
    StopPersists(c, w, p, p', i, p'.workers[i]);
    SameClock(c, w, p', w');
  }

  lemma SameClock(c: Config, w: World, p: Process, w': World)
    requires |p.completed| + Recordings(p) <= |p.results| && w'.now == w.now
    ensures StopInv(c, w, p) ==> StopInv(c, w', p)
  {
    hide FilledIn, LeftOut;
  }

  lemma RecordDisciplined(c: Config, w: World, i: nat, outcome: Outcome)
    requires Inv(c, w) && Disciplined(c, w) && Enabled(c, w, Record(i, outcome))
    ensures Disciplined(c, Step(c, w, Record(i, outcome)))
  {
    var p := w.process.value;
    var row := RowOf(p.workers[i].suite, c.source, p.signal, outcome);
    hide Shape, Conserved, Writes, Awaited, FailureInv, StopInv, RowOf;
    Basics(c, p);
    WorkingSize(w.checkpoint, p);
    assert p.workers[i] in p.workers && p.phase == Working;
    RecordFailure(c, p, i, row);
    StopPersists(c, w, p, Recorded(p, i, row), i, Waiting(p.enqueued + 1));
  }

  lemma LaunchDisciplined(c: Config, w: World, completed: seq<Row>)
    ensures Disciplined(c, Launch(c, w, completed))
  {
    var p := Launch(c, w, completed).process.value;
    assert ByWorkers(p) == [];
  }

  lemma BeginDisciplined(c: Config, w: World, resume: bool, logs: map<string, LogFile>)
    requires w.process.None?
    ensures Disciplined(c, BeginStep(c, w, resume, logs))
  {
    hide Disciplined, Launch, Completed;
    assert Disciplined(c, w) && Disciplined(c, w.(created := true, starting := true)) by {
      Unowned(c, w);
      Unowned(c, w.(created := true, starting := true));
    }
    LaunchDisciplined(c, w, []);
    if w.checkpoint.Some? {
      var r := Completed(w.checkpoint.value, {}, ById(c.selected), c.source, logs);
      if r.Ok? { LaunchDisciplined(c, w, r.value); }
    }
  }

  lemma Unowned(c: Config, w: World)
    requires w.process.None?
    ensures Disciplined(c, w)
  {
  }

  lemma AcknowledgeDisciplined(c: Config, w: World, i: nat)
    requires Inv(c, w) && Disciplined(c, w) && Enabled(c, w, Acknowledge(i))
    ensures Disciplined(c, Step(c, w, Acknowledge(i)))
  {
    var p := w.process.value;
    assert p.workers[i] in p.workers && p.phase == Working;
    var p' := p.(workers := p.workers[i := Idle]);
    WorkersFailure(c, p, p', i, Idle);
    StopPersists(c, w, p, p', i, Idle);
  }

  /** Time, a signal and the checkpoint chain undo no stop condition. */
  lemma QuietDisciplined(c: Config, w: World, w': World)
    requires Disciplined(c, w) && w.process.Some? && w'.process.Some? && w.now <= w'.now
    requires var p := w.process.value; var p' := w'.process.value;
             && p' == p.(signal := p'.signal, snapshot := p'.snapshot, written := p'.written, phase := p'.phase)
             && (p.signal.Some? ==> p'.signal == p.signal)
             && Open(p) == Open(p')
    ensures Disciplined(c, w')
  {
    var p, p' := w.process.value, w'.process.value;
    assert ByWorkers(p') == ByWorkers(p) && FilledIn(p') == FilledIn(p);
    hide ByWorkers, FilledIn, AfterBad, HasBad;
    assert LeftOut(p') == LeftOut(p);
    SkipsStayTrue(c, w, p, w', p', FilledIn(p), LeftOut(p));
  }

  lemma StepDisciplined(c: Config, w: World, e: Event)
    requires Valid(c) && Inv(c, w) && Disciplined(c, w)
    ensures Disciplined(c, Step(c, w, e))
  {
    hide Inv, Disciplined, BeginStep, TakeStep, RecordStep, SkipOneStep, CloseStep;
    var w' := Step(c, w, e);
    if Enabled(c, w, e) {
      match e
      case Begin(resume, logs) => BeginDisciplined(c, w, resume, logs);
      case WriteInventory => LaunchDisciplined(c, w, []);
      case Take(i) => TakeDisciplined(c, w, i);
      case Record(i, outcome) => RecordDisciplined(c, w, i, outcome);
      case Acknowledge(i) => AcknowledgeDisciplined(c, w, i);
      case SkipOne => SkipOneDisciplined(c, w);
      case Close => CloseDisciplined(c, w);
      case Tick(_) => if w.process.None? { Unowned(c, w'); } else { QuietDisciplined(c, w, w'); }
      case Die => Unowned(c, w');
      case Signal(_) => QuietDisciplined(c, w, w');
      case Serialize => QuietDisciplined(c, w, w');
      case Rename => QuietDisciplined(c, w, w');
      case Report => QuietDisciplined(c, w, w');
    }
  }

  lemma {:induction false} RunDisciplined(c: Config, w: World, events: seq<Event>)
    requires Valid(c) && Inv(c, w) && Disciplined(c, w)
    ensures Inv(c, Run(c, w, events)) && Disciplined(c, Run(c, w, events))
    decreases |events|
  {
    hide Inv, Disciplined, Step;
    if events != [] {
      StepKeeps(c, w, events[0]);
      StepDisciplined(c, w, events[0]);
      RunDisciplined(c, Step(c, w, events[0]), events[1..]);
    }
  }

  lemma Reachable(c: Config, events: seq<Event>)
    requires Valid(c)
    ensures Inv(c, Run(c, INITIAL, events)) && Disciplined(c, Run(c, INITIAL, events))
  {
    RunDisciplined(c, INITIAL, events);
  }

  // ---- main results ----

  /** With fail-fast on, fewer worker rows than workers follow the first required failure of an invocation. */
  lemma FailFastBound(c: Config, events: seq<Event>)
    requires Valid(c) && c.failFast
    ensures var w := Run(c, INITIAL, events);
            w.process.Some? ==>
              var p := w.process.value;
              && |p.completed| + Recordings(p) <= |p.results|
              && (HasBad(ByWorkers(p)) ==> |AfterBad(ByWorkers(p))| + Busy(p.workers) < c.concurrency)
  {
    Reachable(c, events);
  }

  /** While the same process lives, no suite starts once a required failure is recorded. */
  lemma {:induction false} FailFastStartsNothing(c: Config, w: World, events: seq<Event>)
    requires c.failFast && w.process.Some? && w.process.value.failureSeen && !w.starting
    requires Die !in events
    ensures Run(c, w, events).started == w.started
    ensures Run(c, w, events).process.Some? && Run(c, w, events).process.value.failureSeen
    decreases |events|
  {
    if events != [] {
      var next := Step(c, w, events[0]);
      assert events[0] in events;
      assert next.started == w.started && next.process.Some? && next.process.value.failureSeen && !next.starting;
      FailFastStartsNothing(c, next, events[1..]);
    }
  }

  /** From the moment a worker records a required failure, its invocation starts nothing more. */
  lemma FailFastStops(c: Config, before: seq<Event>, after: seq<Event>)
    requires Valid(c) && c.failFast && Die !in after
    requires Run(c, INITIAL, before).process.Some?
    requires var p := Run(c, INITIAL, before).process.value;
             |p.completed| + Recordings(p) <= |p.results| && HasBad(ByWorkers(p))
    ensures Run(c, Run(c, INITIAL, before), after).started == Run(c, INITIAL, before).started
  {
    Reachable(c, before);
    FailFastStartsNothing(c, Run(c, INITIAL, before), after);
  }

  /**
   `nextSuite` in all cases: an idle worker gets the suite under the cursor exactly when no signal is
   noted, the deadline is ahead, no worker of this invocation recorded a required failure under
   fail-fast, and a suite is left; otherwise it stops for good.
   */
  lemma TakesExactly(c: Config, events: seq<Event>, i: nat)
    requires Valid(c) && Enabled(c, Run(c, INITIAL, events), Take(i))
    ensures var w := Run(c, INITIAL, events); var p := w.process.value; var w' := Step(c, w, Take(i));
            && |p.completed| + Recordings(p) <= |p.results| && p.cursor <= |p.pending|
            && w'.process.Some? && |w'.process.value.workers| == |p.workers|
            && if p.signal.None? && w.now < p.deadlineAt && !(c.failFast && HasBad(ByWorkers(p))) && p.cursor < |p.pending|
               then w'.started == w.started + [p.pending[p.cursor].id]
                    && w'.process.value.workers[i] == Running(p.pending[p.cursor])
                    && w'.process.value.cursor == p.cursor + 1
               else w'.started == w.started && w'.process.value.workers[i] == Stopped
                    && w'.process.value.cursor == p.cursor
  {
    Reachable(c, events);
    var w := Run(c, INITIAL, events);
    Basics(c, w.process.value);
    hide Run, Inv, StopInv, AfterBad, HasBad;
    assert w.process.value.failureSeen == HasBad(ByWorkers(w.process.value));
  }

  /**
   With time and suites left, a worker that asks is refused exactly when fail-fast is on and a worker
   of the same invocation recorded a required failure; failures accepted on resume do not count.
   */
  lemma FailFastExactly(c: Config, events: seq<Event>, i: nat)
    requires Valid(c) && Enabled(c, Run(c, INITIAL, events), Take(i))
    requires var w := Run(c, INITIAL, events); var p := w.process.value;
             p.signal.None? && w.now < p.deadlineAt && p.cursor < |p.pending|
    ensures var w := Run(c, INITIAL, events); var p := w.process.value;
            && |p.completed| + Recordings(p) <= |p.results|
            && (Step(c, w, Take(i)).started == w.started <==> c.failFast && HasBad(ByWorkers(p)))
  {
    TakesExactly(c, events, i);
    var w := Run(c, INITIAL, events);
    var id := w.process.value.pending[w.process.value.cursor].id;
    assert |w.started + [id]| == |w.started| + 1;
    hide Run, Step, HasBad;
  }

  /** The process is told to stop, or has run out of time. */
  predicate Halted(w: World)
  {
    w.process.Some? && !w.starting && (w.process.value.signal.Some? || w.now >= w.process.value.deadlineAt)
  }

  /** While the same process lives, no suite starts once a signal is noted or the deadline has passed. */
  lemma {:induction false} HaltedStartsNothing(c: Config, w: World, events: seq<Event>)
    requires Halted(w) && Die !in events
    ensures Run(c, w, events).started == w.started && Halted(Run(c, w, events))
    decreases |events|
  {
    if events != [] {
      var next := Step(c, w, events[0]);
      assert events[0] in events;
      HaltedStep(c, w, events[0]);
      HaltedStartsNothing(c, next, events[1..]);
    }
  }

  lemma HaltedStep(c: Config, w: World, e: Event)
    requires Halted(w) && e != Die
    ensures Step(c, w, e).started == w.started && Halted(Step(c, w, e))
  {
    hide RowOf, Bad;
  }

  /** After a signal the same invocation starts nothing more; the first signal is the one that is noted. */
  lemma SignalStops(c: Config, before: seq<Event>, name: string, after: seq<Event>)
    requires Valid(c) && Run(c, INITIAL, before).process.Some? && Die !in after
    ensures var w := Run(c, INITIAL, before); var signalled := Step(c, w, Signal(name));
            && signalled.process.Some?
            && signalled.process.value.signal == (if w.process.value.signal.Some? then w.process.value.signal else Some(name))
            && Run(c, signalled, after).started == w.started
  {
    Reachable(c, before);
    var w := Run(c, INITIAL, before);
    assert !w.starting;
    hide Run, Inv;
    HaltedStartsNothing(c, Step(c, w, Signal(name)), after);
  }

  /** The deadline of an invocation is set when it launches and stays. */
  lemma {:induction false} DeadlineStays(c: Config, w: World, events: seq<Event>)
    requires w.process.Some? && !w.starting && Die !in events
    ensures var w' := Run(c, w, events);
            w'.process.Some? && !w'.starting && w'.process.value.deadlineAt == w.process.value.deadlineAt && w'.now >= w.now
    decreases |events|
  {
    if events != [] {
      var next := Step(c, w, events[0]);
      assert events[0] in events;
      DeadlineStep(c, w, events[0]);
      DeadlineStays(c, next, events[1..]);
    }
  }

  lemma DeadlineStep(c: Config, w: World, e: Event)
    requires w.process.Some? && !w.starting && e != Die
    ensures var w' := Step(c, w, e);
            w'.process.Some? && !w'.starting && w'.process.value.deadlineAt == w.process.value.deadlineAt && w'.now >= w.now
  {
    hide RowOf, Bad;
  }

  /** An invocation that launched `deadlineMs` ago starts nothing more. */
  lemma DeadlineStops(c: Config, before: seq<Event>, launch: Event, between: seq<Event>, after: seq<Event>)
    requires Valid(c) && Run(c, INITIAL, before).process.None? && Die !in between && Die !in after
    requires Step(c, Run(c, INITIAL, before), launch).process.Some?
    requires var launched := Step(c, Run(c, INITIAL, before), launch);
             Run(c, launched, between).now >= launched.now + c.deadlineMs
    ensures var late := Run(c, Step(c, Run(c, INITIAL, before), launch), between);
            Run(c, late, after).started == late.started
  {
    var w := Run(c, INITIAL, before);
    var launched := Step(c, w, launch);
    assert launched.process.value.deadlineAt == launched.now + c.deadlineMs && !launched.starting;
    hide Step;
    DeadlineStays(c, launched, between);
    HaltedStartsNothing(c, Run(c, launched, between), after);
  }

  /** A finished list is what was accepted, what workers recorded, and true skips for all the rest in order. */
  lemma FinishedRowsExplained(c: Config, events: seq<Event>)
    requires Valid(c)
    ensures var w := Run(c, INITIAL, events);
            w.process.Some? && w.process.value.phase == Finished ==>
              var p := w.process.value;
              && |p.completed| + Recordings(p) <= |p.results| && |FilledIn(p)| <= |p.pending|
              && p.results == p.completed + ByWorkers(p) + FilledIn(p)
              && AllTrulySkipped(c, w, p, FilledIn(p), p.pending[|p.pending| - |FilledIn(p)|..])
  {
    Reachable(c, events);
    hide Run, Inv, Disciplined;
    var w := Run(c, INITIAL, events);
    if w.process.Some? && w.process.value.phase == Finished { FineExplains(c, w, w.process.value); }
  }

  lemma FineExplains(c: Config, w: World, p: Process)
    requires Inv(c, w) && Disciplined(c, w) && w.process == Some(p) && p.phase == Finished
    ensures |p.completed| + Recordings(p) <= |p.results| && |FilledIn(p)| <= |p.pending|
    ensures p.results == p.completed + ByWorkers(p) + FilledIn(p)
    ensures AllTrulySkipped(c, w, p, FilledIn(p), p.pending[|p.pending| - |FilledIn(p)|..])
  {
    hide Conserved, Awaited, Writes, FailureInv, AllTrulySkipped;
    assert p.cursor == |p.pending| && p.completed <= p.results;
    assert p.pending[|p.pending| - |FilledIn(p)|..] == LeftOut(p);
  }

  /** So fewer executed rows than workers follow the first required failure in a finished fail-fast run. */
  lemma FailFastFinish(c: Config, events: seq<Event>)
    requires Valid(c) && c.failFast
    ensures var w := Run(c, INITIAL, events);
            w.process.Some? && w.process.value.phase == Finished && w.process.value.failureSeen ==>
              var p := w.process.value;
              && |p.completed| <= |p.results|
              && |Filter(NotSkipped, AfterBad(p.results[|p.completed|..]))| < c.concurrency
  {
    Reachable(c, events);
    var w := Run(c, INITIAL, events);
    if w.process.Some? && w.process.value.phase == Finished && w.process.value.failureSeen {
      FineFinish(c, w, w.process.value);
    }
  }

  lemma FineFinish(c: Config, w: World, p: Process)
    requires Fine(c, w, p) && c.failFast && p.failureSeen
    ensures |Filter(NotSkipped, AfterBad(p.results[|p.completed|..]))| < c.concurrency
  {
    var byWorkers, filled := ByWorkers(p), FilledIn(p);
    assert p.results[|p.completed|..] == byWorkers + filled;
    hide ByWorkers, FilledIn, AfterBad, HasBad, Filter;
    AfterBadAppend(byWorkers, filled);
    FilterAppend(NotSkipped, AfterBad(byWorkers), filled);
    forall row | row in filled ensures !NotSkipped(row) {
      var i :| 0 <= i < |filled| && filled[i] == row;
      assert TrulySkipped(c, w, p, filled[i], LeftOut(p)[i]);
    }
    FilterNone(NotSkipped, filled);
    FilterShorter(NotSkipped, AfterBad(byWorkers));
  }

  lemma FilterShorter(keep: Row -> bool, rows: seq<Row>)
    ensures |Filter(keep, rows)| <= |rows|
  {
  }

  predicate NotSkipped(row: Row) { row.status != SKIPPED }

  // ---- one worker keeps the order ----

  ghost predicate InOrder(p: Process)
  {
    && |p.workers| == 1 && p.cursor <= |p.pending|
    && Ids(p.results) + (if p.workers[0].Running? then [p.workers[0].suite.id] else [])
       == Ids(p.completed) + SuiteIds(p.pending[..p.cursor])
  }

  ghost predicate Ordered(w: World) { w.process.Some? ==> InOrder(w.process.value) }

  lemma StepOrdered(c: Config, w: World, e: Event)
    requires Valid(c) && c.concurrency == 1 && Inv(c, w) && Ordered(w)
    ensures Ordered(Step(c, w, e))
  {
    hide Inv;
    if Enabled(c, w, e) {
      if e.Begin? {
        BeginOrdered(c, w, e.resume, e.logs);
      } else if e.WriteInventory? {
        LaunchOrdered(c, w, []);
      } else if e.Record? {
        var p := w.process.value;
        RecordOrdered(p, RowOf(p.workers[0].suite, c.source, p.signal, e.outcome));
      } else if e.SkipOne? {
        var p := w.process.value;
        SkipOrdered(p, SkippedRow(p.pending[p.cursor], c.source, SkipReasonNow(w, p)));
      } else if e.Take? {
        var p := w.process.value;
        if !StopsWorker(c, w, p) { TakeOrdered(p); }
      }
    }
  }

  lemma TakeOrdered(p: Process)
    requires InOrder(p) && !p.workers[0].Running? && p.cursor < |p.pending|
    ensures InOrder(Taken(p, 0))
  {
    GrowsByOne(p);
    var id := p.pending[p.cursor].id;
    assert Ids(p.completed) + (SuiteIds(p.pending[..p.cursor]) + [id])
        == Ids(p.completed) + SuiteIds(p.pending[..p.cursor]) + [id];
  }

  lemma RecordOrdered(p: Process, row: Row)
    requires InOrder(p) && p.workers[0].Running? && row.id == p.workers[0].suite.id
    ensures InOrder(Recorded(p, 0, row))
  {
    assert Ids(p.results + [row]) == Ids(p.results) + [row.id];
  }

  lemma SkipOrdered(p: Process, row: Row)
    requires InOrder(p) && Settled(p) && p.cursor < |p.pending| && row.id == p.pending[p.cursor].id
    ensures InOrder(Filled(p, row))
  {
    assert p.workers[0] in p.workers;
    TakeOrdered(p);
    assert Ids(p.results + [row]) == Ids(p.results) + [row.id];
  }

  lemma GrowsByOne(p: Process)
    requires p.cursor <= |p.pending|
    ensures p.cursor < |p.pending| ==>
              SuiteIds(p.pending[..p.cursor + 1]) == SuiteIds(p.pending[..p.cursor]) + [p.pending[p.cursor].id]
  {
  }

  lemma BeginOrdered(c: Config, w: World, resume: bool, logs: map<string, LogFile>)
    requires c.concurrency == 1 && w.process.None?
    ensures Ordered(BeginStep(c, w, resume, logs))
  {
    LaunchOrdered(c, w, []);
    if w.checkpoint.Some? {
      var r := Completed(w.checkpoint.value, {}, ById(c.selected), c.source, logs);
      if r.Ok? { LaunchOrdered(c, w, r.value); }
    }
  }

  lemma LaunchOrdered(c: Config, w: World, completed: seq<Row>)
    requires c.concurrency == 1
    ensures Ordered(Launch(c, w, completed))
  {
    var p := Launch(c, w, completed).process.value;
    assert SuiteIds(p.pending[..0]) == [];
  }

  lemma {:induction false} RunOrdered(c: Config, w: World, events: seq<Event>)
    requires Valid(c) && c.concurrency == 1 && Inv(c, w) && Ordered(w)
    ensures Inv(c, Run(c, w, events)) && Ordered(Run(c, w, events))
    decreases |events|
  {
    if events != [] {
      StepKeeps(c, w, events[0]);
      StepOrdered(c, w, events[0]);
      RunOrdered(c, Step(c, w, events[0]), events[1..]);
    }
  }

  /** A single worker reports accepted rows first and then the remaining suites in the selected order. */
  lemma OneWorkerOrder(c: Config, events: seq<Event>)
    requires Valid(c) && c.concurrency == 1
    ensures var w := Run(c, INITIAL, events);
            w.process.Some? && w.process.value.phase == Finished ==>
              var p := w.process.value;
              && Ids(p.results) ==
                 Ids(p.completed) + SuiteIds(Filter((s: Suite) => s.id !in Ids(p.completed), c.selected))
              && (p.completed == [] ==> Ids(p.results) == SuiteIds(c.selected))
  {
    RunOrdered(c, INITIAL, events);
    var w := Run(c, INITIAL, events);
    if w.process.Some? && w.process.value.phase == Finished {
      var p := w.process.value;
      assert p.workers[0] in p.workers;
      assert p.pending[..p.cursor] == p.pending;
      if p.completed == [] { FilterAll((s: Suite) => s.id !in Ids(p.completed), c.selected); }
    }
  }
}
