/** An invocation that keeps being scheduled finishes: the checkpoint chain cannot deadlock. */
module AuditProgress {
  import opened Common
  import opened AuditRow
  import opened AuditEngine
  import opened AuditInvariant

  /** Steps of the invocation itself, as opposed to its surroundings. */
  predicate Internal(e: Event)
  {
    !(e.Begin? || e.WriteInventory? || e.Signal? || e.Tick? || e.Die?)
  }

  function WorkerWeight(worker: Worker): nat
  {
    match worker
    case Stopped => 0
    case Idle => 1
    case Waiting(_) => 2
    case Running(_) => 7
  }

  function Weights(workers: seq<Worker>): nat
  {
    if workers == [] then 0 else WorkerWeight(workers[0]) + Weights(workers[1..])
  }

  lemma {:induction false} WeightsUpdate(workers: seq<Worker>, i: nat, worker: Worker)
    requires i < |workers|
    ensures Weights(workers[i := worker]) + WorkerWeight(workers[i]) == Weights(workers) + WorkerWeight(worker)
  {
    var updated := workers[i := worker];
    if i == 0 {
      assert updated[1..] == workers[1..];
    } else {
      assert updated[1..] == workers[1..][i - 1 := worker];
      WeightsUpdate(workers[1..], i - 1, worker);
    }
  }

  function PhaseWeight(phase: Phase): nat
  {
    match phase
    case Working => 4
    case Skipping => 4
    case Draining => 1
    case Finished => 0
  }

  /** An upper bound on the steps that an invocation has left. */
  function StepsLeft(p: Process): int
  {
    8 * (|p.pending| - p.cursor) + Weights(p.workers) + 2 * (p.enqueued - p.written)
    - (if p.snapshot.Some? then 1 else 0) + PhaseWeight(p.phase)
  }

  /** A worker waits only for a write that was enqueued. */
  ghost predicate TicketsEnqueued(p: Process)
  {
    forall worker <- p.workers :: worker.Waiting? ==> worker.ticket <= p.enqueued
  }

  ghost predicate Live(w: World) { w.process.Some? ==> TicketsEnqueued(w.process.value) }

  lemma StepLive(c: Config, w: World, e: Event)
    requires Inv(c, w) && Live(w)
    ensures Live(Step(c, w, e))
  {
    hide Inv;
    if Enabled(c, w, e) && (e.Take? || e.Record? || e.Acknowledge?) {
      var p := w.process.value;
      var p' := Step(c, w, e).process.value;
      forall worker | worker in p'.workers && worker.Waiting?
        ensures worker.ticket <= p'.enqueued
      {
        assert worker in p.workers || worker == Waiting(p.enqueued + 1);
      }
    }
  }

  lemma {:induction false} RunLive(c: Config, w: World, events: seq<Event>)
    requires Valid(c) && Inv(c, w) && Live(w)
    ensures Inv(c, Run(c, w, events)) && Live(Run(c, w, events))
    decreases |events|
  {
    if events != [] {
      StepKeeps(c, w, events[0]);
      StepLive(c, w, events[0]);
      RunLive(c, Step(c, w, events[0]), events[1..]);
    }
  }

  // ---- main results ----

  /** No deadlock: until it has finished, an invocation can take a step of its own. */
  lemma AlwaysAStep(c: Config, events: seq<Event>) returns (e: Event)
    requires Valid(c)
    requires Run(c, INITIAL, events).process.Some? && Run(c, INITIAL, events).process.value.phase != Finished
    ensures Internal(e) && Enabled(c, Run(c, INITIAL, events), e)
  {
    RunLive(c, INITIAL, events);
    var w := Run(c, INITIAL, events);
    var p := w.process.value;
    assert TicketsEnqueued(p) && (p.phase != Working ==> forall worker <- p.workers :: worker.Stopped?);
    assert p.written <= p.enqueued && (p.snapshot.Some? ==> p.written < p.enqueued);
    hide Inv, Live, Run;
    if p.snapshot.Some? {
      e := Rename;
    } else if p.written < p.enqueued {
      e := Serialize;
    } else if p.phase == Draining {
      e := Report;
    } else if i :| 0 <= i < |p.workers| && !p.workers[i].Stopped? {
      assert p.workers[i] in p.workers;
      if p.workers[i].Idle? {
        e := Take(i);
      } else if p.workers[i].Running? {
        e := Record(i, WasBlocked([]));
      } else {
        e := Acknowledge(i);
      }
    } else {
      e := if p.cursor < |p.pending| then SkipOne else Close;
    }
  }

  /** No livelock: each such step uses up the bound, whatever it is. */
  lemma EachStepCounts(c: Config, w: World, e: Event)
    requires Valid(c) && Inv(c, w) && Internal(e) && Enabled(c, w, e)
    ensures Step(c, w, e).process.Some?
    ensures 0 <= StepsLeft(Step(c, w, e).process.value) < StepsLeft(w.process.value)
  {
    var w' := Step(c, w, e);
    StepKeeps(c, w, e);
    hide Inv, StepsLeft, Step;
    if e.Take? || e.Record? || e.Acknowledge? {
      WorkerStepCounts(c, w, e);
    } else {
      OtherStepCounts(c, w, e);
    }
    BoundNatural(c, w');
  }

  lemma WorkerStepCounts(c: Config, w: World, e: Event)
    requires Enabled(c, w, e) && (e.Take? || e.Record? || e.Acknowledge?)
    ensures Step(c, w, e).process.Some? && StepsLeft(Step(c, w, e).process.value) < StepsLeft(w.process.value)
  {
    hide StepsLeft, RowOf;
    var p, p' := w.process.value, Step(c, w, e).process.value;
    WorkerCounts(p, p', e.worker, p'.workers[e.worker]);
  }

  lemma OtherStepCounts(c: Config, w: World, e: Event)
    requires Enabled(c, w, e) && Internal(e) && !(e.Take? || e.Record? || e.Acknowledge?)
    ensures Step(c, w, e).process.Some? && StepsLeft(Step(c, w, e).process.value) < StepsLeft(w.process.value)
  {
    hide StepsLeft, SkippedRow;
    OthersCount(w.process.value, Step(c, w, e).process.value);
  }

  lemma WorkerCounts(p: Process, p': Process, i: nat, worker: Worker)
    requires i < |p.workers| && p'.workers == p.workers[i := worker]
    requires p'.pending == p.pending && p'.snapshot == p.snapshot && p'.phase == p.phase && p'.written == p.written
    requires 8 * (p.cursor - p'.cursor) + WorkerWeight(worker) + 2 * (p'.enqueued - p.enqueued)
             < WorkerWeight(p.workers[i])
    ensures StepsLeft(p') < StepsLeft(p)
  {
    WeightsUpdate(p.workers, i, worker);
  }

  lemma OthersCount(p: Process, p': Process)
    requires p'.workers == p.workers && p'.pending == p.pending
    requires 8 * (p.cursor - p'.cursor) + 2 * (p'.enqueued - p'.written) + PhaseWeight(p'.phase)
             - (if p'.snapshot.Some? then 1 else 0)
             < 2 * (p.enqueued - p.written) + PhaseWeight(p.phase) - (if p.snapshot.Some? then 1 else 0)
    ensures StepsLeft(p') < StepsLeft(p)
  {
    hide Weights;
  }

  /** Until it has finished, the invocation is among these steps; the surroundings may act in between. */
  ghost predicate Unfinished(c: Config, w: World, events: seq<Event>)
    decreases |events|
  {
    events != [] ==>
      && w.process.Some? && w.process.value.phase != Finished
      && Enabled(c, w, events[0]) && events[0] != Die
      && Unfinished(c, Step(c, w, events[0]), events[1..])
  }

  function InternalSteps(events: seq<Event>): nat
  {
    if events == [] then 0 else (if Internal(events[0]) then 1 else 0) + InternalSteps(events[1..])
  }

  /** So an invocation takes at most `StepsLeft` steps of its own, in any interleaving with signals and time. */
  lemma {:induction false} InvocationBounded(c: Config, w: World, events: seq<Event>)
    requires Valid(c) && Inv(c, w) && w.process.Some? && Unfinished(c, w, events)
    ensures InternalSteps(events) <= StepsLeft(w.process.value)
    decreases |events|
  {
    if events == [] {
      BoundNatural(c, w);
    } else {
      var next := Step(c, w, events[0]);
      StepKeeps(c, w, events[0]);
      if Internal(events[0]) {
        EachStepCounts(c, w, events[0]);
      } else {
        assert events[0].Tick? || events[0].Signal?;
        assert StepsLeft(next.process.value) == StepsLeft(w.process.value);
      }
      InvocationBounded(c, next, events[1..]);
    }
  }

  lemma BoundNatural(c: Config, w: World)
    requires Inv(c, w) && w.process.Some?
    ensures StepsLeft(w.process.value) >= 0
  {
  }
}
