/** The runner itself: the variables that its workers share, updated in place, one step at a time. */
module AuditRunner {
  import opened Common
  import opened AuditRow
  import opened AuditEngine

  class Invocation {
    const config: Config
    const completedResults: seq<Row>
    const pending: seq<Suite>
    const deadlineAt: nat

    var cursor: nat
    var results: seq<Row>
    var requiredFailureSeen: bool
    var workers: seq<Worker>
    var enqueued: nat
    var written: nat
    var snapshot: Option<seq<Row>>
    var requestedTerminationSignal: Option<string>
    var phase: Phase
    var checkpoint: Option<seq<Row>>
    var now: nat
    ghost var started: seq<string>

    ghost function State(): Process
      reads this
    {
      Process(completedResults, pending, deadlineAt, cursor, results, requiredFailureSeen, workers,
              enqueued, written, snapshot, requestedTerminationSignal, phase)
    }

    ghost function World(): World
      reads this
    {
      AuditEngine.World.World(true, true, false, checkpoint, now, started, Some(State()))
    }

    constructor (c: Config, w: World, completed: seq<Row>)
      requires w.created
      ensures config == c && World() == Launch(c, w, completed)
    {
      config := c;
      completedResults := completed;
      pending := Filter((s: Suite) => s.id !in Ids(completed), c.selected);
      deadlineAt := w.now + c.deadlineMs;
      cursor, results, requiredFailureSeen := 0, completed, false;
      workers := seq(c.concurrency, _ => Idle);
      enqueued, written, snapshot := 0, 0, None;
      requestedTerminationSignal, phase := None, Working;
      checkpoint, now, started := w.checkpoint, w.now, w.started;
    }

    /** `nextSuite`: the four reasons to stop, in order, or the next suite and an advanced cursor. */
    method NextSuite(worker: nat) returns (suite: Option<Suite>)
      requires Enabled(config, World(), Take(worker))
      modifies this
      ensures World() == Step(config, old(World()), Take(worker))
      ensures suite.Some? <==> started != old(started)
      ensures suite.Some? ==> started == old(started) + [suite.value.id] && workers[worker] == Running(suite.value)
    {
      if requestedTerminationSignal.Some? { workers := workers[worker := Stopped]; return None; }
      if config.failFast && requiredFailureSeen { workers := workers[worker := Stopped]; return None; }
      if now >= deadlineAt { workers := workers[worker := Stopped]; return None; }
      if cursor >= |pending| { workers := workers[worker := Stopped]; return None; }
      suite := Some(pending[cursor]);
      cursor := cursor + 1;
      workers := workers[worker := Running(suite.value)];
      started := started + [suite.value.id];
    }

    /** The rest of a worker's turn: make the row, push it, note a required failure, enqueue a write. */
    method Finish(worker: nat, outcome: Outcome) returns (result: Row)
      requires Enabled(config, World(), Record(worker, outcome))
      modifies this
      ensures World() == Step(config, old(World()), Record(worker, outcome))
      ensures results == old(results) + [result]
    {
      var suite := workers[worker].suite;
      match outcome {
        case WasInterrupted =>
          result := SkippedRow(suite, config.source, Interrupted(requestedTerminationSignal.value));
        case WasBlocked(blockers) =>
          result := BlockedRow(suite, config.source, blockers);
        case WasExecuted(logPath, end) =>
          result := RunSuite(suite, config.source, logPath, end);
      }
      results := results + [result];
      if result.required && result.status != PASS { requiredFailureSeen := true; }
      enqueued := enqueued + 1;
      workers := workers[worker := Waiting(enqueued)];
    }

    /** The next link of the checkpoint chain runs: the live list is serialized to a temporary file. */
    method SerializeCheckpoint()
      requires Enabled(config, World(), Serialize)
      modifies this
      ensures World() == Step(config, old(World()), Serialize)
    {
      snapshot := Some(results);
    }

    /** The temporary file replaces the checkpoint. */
    method RenameCheckpoint()
      requires Enabled(config, World(), Rename)
      modifies this
      ensures World() == Step(config, old(World()), Rename)
    {
      checkpoint := snapshot;
      snapshot := None;
      written := written + 1;
    }

    /** The await of a worker on its own write returns. */
    method Resume(worker: nat)
      requires Enabled(config, World(), Acknowledge(worker))
      modifies this
      ensures World() == Step(config, old(World()), Acknowledge(worker))
    {
      workers := workers[worker := Idle];
    }

    /** The body of the loop over the suites that no worker took. */
    method SkipSuite()
      requires Enabled(config, World(), SkipOne)
      modifies this
      ensures World() == Step(config, old(World()), SkipOne)
    {
      var skipReason :=
        if requestedTerminationSignal.Some? then Interrupted(requestedTerminationSignal.value)
        else if now >= deadlineAt then TotalDeadline
        else FailFast;
      results := results + [SkippedRow(pending[cursor], config.source, skipReason)];
      cursor, phase := cursor + 1, Skipping;
    }

    /** One more write if this invocation added anything. */
    method EnqueueLast()
      requires Enabled(config, World(), Close)
      modifies this
      ensures World() == Step(config, old(World()), Close)
    {
      if |results| != |completedResults| {
        enqueued, phase := enqueued + 1, Draining;
      } else {
        phase := Finished;
      }
    }

    /** After all workers: one skipped row for each untouched suite, then the last write. */
    method SkipRest()
      requires Settled(State()) && cursor <= |pending|
      modifies this
      ensures World() == Run(config, old(World()), SkipAll(|pending| - old(cursor)))
    {
      while cursor < |pending|
        invariant cursor <= |pending| && Settled(State())
        invariant Run(config, World(), SkipAll(|pending| - cursor)) ==
                  Run(config, old(World()), SkipAll(|pending| - old(cursor)))
      {
        hide Run, SkipAll;
        SkipAllStarts(config, World(), |pending| - cursor);
        SkipSuite();
      }
      hide Run, SkipAll;
      SkipAllEnds(config, World());
      EnqueueLast();
    }
  }

  /** The steps of that loop for `n` untouched suites. */
  function SkipAll(n: nat): seq<Event>
  {
    if n == 0 then [Close] else [SkipOne] + SkipAll(n - 1)
  }

  lemma SkipAllStarts(c: Config, w: World, n: nat)
    requires n > 0
    ensures Run(c, w, SkipAll(n)) == Run(c, Step(c, w, SkipOne), SkipAll(n - 1))
  {
    assert SkipAll(n)[0] == SkipOne && SkipAll(n)[1..] == SkipAll(n - 1);
  }

  lemma SkipAllEnds(c: Config, w: World)
    ensures Run(c, w, SkipAll(0)) == Step(c, w, Close)
  {
    assert [Close][1..] == [];
    assert Run(c, Step(c, w, Close), []) == Step(c, w, Close);
  }

  /** The world after the start of `runAudit`: a fresh invocation makes the directory and then writes the inventory. */
  function Began(c: Config, w: World, resume: bool, logs: map<string, LogFile>): World
  {
    var begun := Step(c, w, AuditEngine.Begin(resume, logs));
    if begun.starting then Step(c, begun, WriteInventory) else begun
  }

  /**
   The start of `runAudit`: a fresh directory, or a directory with an inventory whose checkpoint, if
   there is one, is acceptable; otherwise it throws.
   */
  method Begin(c: Config, w: World, resume: bool, logs: map<string, LogFile>) returns (run: Invocation?)
    requires w.process.None? && !w.starting
    ensures run == null <==> Step(c, w, AuditEngine.Begin(resume, logs)) == w
    ensures run != null ==> fresh(run) && run.config == c && run.World() == Began(c, w, resume, logs)
  {
    if resume {
      if !w.created || !w.inventory { return null; }
      var completed: seq<Row> := [];
      if w.checkpoint.Some? {
        var r := ValidateCompletedResults(w.checkpoint.value, c.selected, c.source, logs);
        if r.Err? { return null; }
        completed := r.value;
      }
      run := new Invocation(c, w, completed);
    } else {
      if w.created { return null; }
      run := new Invocation(c, w.(created := true), []);
    }
  }
}
