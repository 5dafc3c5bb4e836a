/** Conservation and durability over every run: interleavings, stops, crashes and resumes. */
module AuditResume {
  import opened Common
  import opened AuditRow
  import opened AuditEngine
  import opened AuditInvariant

  /** A finished invocation has exactly one row per selected suite. */
  lemma FinishedIsPermutation(c: Config, events: seq<Event>)
    requires Valid(c)
    ensures var w := Run(c, INITIAL, events);
            w.process.Some? && w.process.value.phase == Finished ==>
              && multiset(Ids(w.process.value.results)) == multiset(SuiteIds(c.selected))
              && (w.process.value.written > 0 ==> w.checkpoint == Some(w.process.value.results))
  {
    RunKeeps(c, INITIAL, events);
    var w := Run(c, INITIAL, events);
    if w.process.Some? && w.process.value.phase == Finished {
      var p := w.process.value;
      forall id ensures multiset(Ids(p.results))[id] == multiset(SuiteIds(c.selected))[id] {
        assert Ledger(p, id) == multiset(SuiteIds(c.selected))[id];
        NoneRunning(p.workers, id);
      }
    }
  }

  /** Each checkpoint write is a prefix of the live result list and extends the previous write. */
  lemma WritesArePrefixes(c: Config, events: seq<Event>)
    requires Valid(c)
    ensures var w := Run(c, INITIAL, events); var next := Step(c, w, Rename);
            w.process.Some? && Enabled(c, w, Rename) ==>
              && next.checkpoint.Some? && next.checkpoint.value <= w.process.value.results
              && Sound(c, next.checkpoint.value)
              && (w.process.value.written > 0 ==> w.checkpoint.Some? && w.checkpoint.value <= next.checkpoint.value)
  {
    RunKeeps(c, INITIAL, events);
    var w := Run(c, INITIAL, events);
    StepKeeps(c, w, Rename);
  }

  // ---- an accepted row is never executed again ----

  ghost predicate OnRecord(w: World, row: Row)
  {
    Resumable(row) && w.checkpoint.Some? && row in w.checkpoint.value
  }

  /** Whoever owns the run directory has the row in its list already. */
  lemma OnRecordIsRecorded(c: Config, w: World, row: Row)
    requires Inv(c, w) && OnRecord(w, row) && w.process.Some?
    ensures row in w.process.value.results
    ensures w.process.value.snapshot.Some? ==> row in w.process.value.snapshot.value
  {
    var p := w.process.value;
    if p.written == 0 {
      assert row in p.completed;
      assert p.snapshot.Some? ==> p.completed <= p.snapshot.value;
    }
  }

  lemma StepOnRecord(c: Config, w: World, e: Event, row: Row)
    requires Valid(c) && Inv(c, w) && OnRecord(w, row)
    ensures OnRecord(Step(c, w, e), row)
    ensures w.started <= Step(c, w, e).started
    ensures row.id !in Step(c, w, e).started[|w.started|..]
  {
    var w' := Step(c, w, e);
    if w'.started == w.started { assert w'.started[|w.started|..] == []; }
    if w.process.Some? {
      var p := w.process.value;
      OnRecordIsRecorded(c, w, row);
      if e.Take? && Enabled(c, w, e) && !StopsWorker(c, w, p) {
        assert p.workers[e.worker] in p.workers;
        RecordedIsSettled(c, p, row);
        var rest := p.pending[p.cursor..];
        assert SuiteIds(rest)[0] == p.pending[p.cursor].id;
        assert w'.started[|w.started|..] == [p.pending[p.cursor].id];
      }
    }
  }

  /** A result row on disk that a resume accepts stays on disk and its suite never starts again. */
  lemma {:induction false} RecordedNeverRerun(c: Config, w: World, events: seq<Event>, row: Row)
    requires Valid(c) && Inv(c, w) && OnRecord(w, row)
    ensures OnRecord(Run(c, w, events), row)
    ensures w.started <= Run(c, w, events).started
    ensures row.id !in Run(c, w, events).started[|w.started|..]
    decreases |events|
  {
    hide Inv, Step, OnRecord;
    if events == [] {
    } else {
      var next := Step(c, w, events[0]);
      StepKeeps(c, w, events[0]);
      StepOnRecord(c, w, events[0], row);
      RecordedNeverRerun(c, next, events[1..], row);
      var all := Run(c, w, events).started;
      assert all[|w.started|..] == next.started[|w.started|..] + all[|next.started|..];
    }
  }

  lemma {:induction false} RunSplits(c: Config, w: World, before: seq<Event>, after: seq<Event>)
    ensures Run(c, w, before + after) == Run(c, Run(c, w, before), after)
    decreases |before|
  {
    if before == [] {
      assert before + after == after;
    } else {
      assert (before + after)[1..] == before[1..] + after;
      RunSplits(c, Step(c, w, before[0]), before[1..], after);
    }
  }

  /** The same from the first moment of a run directory, at any point of its history. */
  lemma AcceptedNeverRerun(c: Config, before: seq<Event>, after: seq<Event>, row: Row)
    requires Valid(c) && OnRecord(Run(c, INITIAL, before), row)
    ensures var w := Run(c, INITIAL, before); var end := Run(c, INITIAL, before + after);
            && OnRecord(end, row) && w.started <= end.started && row.id !in end.started[|w.started|..]
  {
    RunKeeps(c, INITIAL, before);
    RunSplits(c, INITIAL, before, after);
    RecordedNeverRerun(c, Run(c, INITIAL, before), after, row);
  }

  // ---- a crash loses at most one result per worker ----

  lemma {:induction false} Tickets(workers: seq<Worker>, low: nat, high: nat)
    requires low <= high && forall t :: low < t <= high ==> Waiting(t) in workers
    ensures high - low <= |workers|
    decreases high - low
  {
    if low < high {
      var i :| 0 <= i < |workers| && workers[i] == Waiting(high);
      var others := workers[..i] + workers[i + 1..];
      forall t | low < t <= high - 1 ensures Waiting(t) in others {
        var j :| 0 <= j < |workers| && workers[j] == Waiting(t);
        assert others[if j < i then j else j - 1] == workers[j];
      }
      Tickets(others, low, high - 1);
    }
  }

  /** What a crash loses now: rows of workers that are not yet on disk, no more than one per worker. */
  lemma CrashLoss(c: Config, events: seq<Event>)
    requires Valid(c)
    ensures var w := Run(c, INITIAL, events);
            w.process.Some? ==>
              var p := w.process.value;
              && Durable(w, p) <= p.results
              && |p.completed| + Recordings(p) <= |p.results|
              && |p.completed| + Recordings(p) - |Durable(w, p)| <= (if p.phase == Working then c.concurrency else 0)
  {
    RunKeeps(c, INITIAL, events);
    var w := Run(c, INITIAL, events);
    if w.process.Some? && w.process.value.phase == Working {
      Tickets(w.process.value.workers, w.process.value.written, w.process.value.enqueued);
    }
  }
}
