/** Output rollback: the outputs are read when the operation arms, and written back if it fails. */
module Rollback {
  import opened Common

  type Files = map<string, string>

  /** Where a write fails, if it does: before its rename, or in the check after it. */
  datatype Fault = NoFault | BeforeRename | AfterRename

  /** `Arm` reads the outputs; `readable` is how many reads the disk allows. */
  datatype Action = Arm(readable: nat) | Write(path: string, contents: string, fault: Fault) | Throw

  /** `snapshot` lists the outputs read so far, in order; `seen` is every state the files have been in. */
  datatype State = State(files: Files, snapshot: Option<seq<(string, string)>>, seen: seq<Files>)

  datatype Outcome = Returned | Threw | RollbackFailed

  /** `writeGate0OutputAtomic`: a temporary file is written, then renamed over the output. */
  function WriteAtomic(s: State, path: string, contents: string, fault: Fault): State
  {
    if fault == BeforeRename then s
    else
      var files := s.files[path := contents];
      s.(files := files, seen := s.seen + [files])
  }

  /** The reads of `armRollback`, up to the first that fails. */
  function ReadAll(files: Files, paths: seq<string>, readable: nat): seq<(string, string)>
    decreases |paths|
  {
    if paths == [] || readable == 0 || paths[0] !in files then []
    else [(paths[0], files[paths[0]])] + ReadAll(files, paths[1..], readable - 1)
  }

  /** One action: the new state, and whether it threw. */
  function Act(s: State, paths: seq<string>, a: Action): (State, bool)
  {
    match a
    case Throw => (s, true)
    case Write(path, contents, fault) => (WriteAtomic(s, path, contents, fault), fault != NoFault)
    case Arm(readable) =>
      if s.snapshot.Some? then (s, true)
      else
        var read := ReadAll(s.files, paths, readable);
        (s.(snapshot := Some(read)), |read| < |paths|)
  }

  /** The operation: its actions up to the first that throws. */
  function Operate(s: State, paths: seq<string>, actions: seq<Action>): (State, bool)
    decreases |actions|
  {
    if actions == [] then (s, false)
    else
      var (next, threw) := Act(s, paths, actions[0]);
      if threw then (next, true) else Operate(next, paths, actions[1..])
  }

  /** The restore loop: every entry is tried; `faults` says how each write fares. The flag says that one failed. */
  function Restore(s: State, entries: seq<(string, string)>, faults: string -> Fault): (State, bool)
    decreases |entries|
  {
    if entries == [] then (s, false)
    else
      var (path, contents) := entries[0];
      var (end, failed) := Restore(WriteAtomic(s, path, contents, faults(path)), entries[1..], faults);
      (end, failed || faults(path) != NoFault)
  }

  /** `runWithGate0OutputRollback`; a signal is noticed when the operation returns. */
  function RunWithRollback(
      files: Files, paths: seq<string>, actions: seq<Action>, signalled: bool, faults: string -> Fault): (State, Outcome)
  {
    var (s, threw) := Operate(State(files, None, [files]), paths, actions);
    if !threw && !signalled then (s.(snapshot := None), Returned)
    else if s.snapshot.None? then (s, Threw)
    else
      var (end, failed) := Restore(s, s.snapshot.value, faults);
      (end, if failed then RollbackFailed else Threw)
  }

  // ---- the program ----

  class Outputs {
    var files: Files
    var rollbackSnapshot: Option<seq<(string, string)>>
    ghost var seen: seq<Files>

    ghost function Now(): State
      reads this
    {
      State(files, rollbackSnapshot, seen)
    }

    constructor (initial: Files)
      ensures Now() == State(initial, None, [initial])
    {
      files, rollbackSnapshot, seen := initial, None, [initial];
    }

    method WriteOutput(path: string, contents: string, fault: Fault) returns (threw: bool)
      modifies this
      ensures Now() == WriteAtomic(old(Now()), path, contents, fault) && threw == (fault != NoFault)
    {
      if fault == BeforeRename { return true; }
      files := files[path := contents];
      seen := seen + [files];
      threw := fault == AfterRename;
    }

    method ArmRollback(paths: seq<string>, readable: nat) returns (threw: bool)
      modifies this
      ensures (Now(), threw) == Act(old(Now()), paths, Arm(readable))
    {
      if rollbackSnapshot.Some? { return true; }
      var read: seq<(string, string)> := [];
      rollbackSnapshot := Some(read);
      assert paths[0..] == paths;
      for i := 0 to |paths|
        invariant files == old(files) && seen == old(seen) && rollbackSnapshot == Some(read)
        invariant i == |read| <= readable
        invariant read + ReadAll(files, paths[i..], readable - i) == ReadAll(files, paths, readable)
      {
        assert paths[i..][0] == paths[i] && paths[i..][1..] == paths[i + 1..];
        if i == readable || paths[i] !in files {
          assert read + [] == read;
          return true;
        }
        ghost var rest := ReadAll(files, paths[i + 1..], readable - i - 1);
        assert read + ([(paths[i], files[paths[i]])] + rest) == read + [(paths[i], files[paths[i]])] + rest;
        read := read + [(paths[i], files[paths[i]])];
        rollbackSnapshot := Some(read);
      }
      assert read + [] == read;
      threw := false;
    }

    method Perform(paths: seq<string>, a: Action) returns (threw: bool)
      modifies this
      ensures (Now(), threw) == Act(old(Now()), paths, a)
    {
      match a {
        case Throw => threw := true;
        case Write(path, contents, fault) => threw := WriteOutput(path, contents, fault);
        case Arm(readable) => threw := ArmRollback(paths, readable);
      }
    }

    /** The `catch` branch: try to write back every snapshot entry. */
    method RestoreAll(entries: seq<(string, string)>, faults: string -> Fault) returns (failed: bool)
      modifies this
      ensures (Now(), failed) == Restore(old(Now()), entries, faults)
    {
      failed := false;
      assert entries[0..] == entries;
      for i := 0 to |entries|
        invariant var (end, more) := Restore(Now(), entries[i..], faults);
                  (end, failed || more) == Restore(old(Now()), entries, faults)
      {
        assert entries[i..][0] == entries[i] && entries[i..][1..] == entries[i + 1..];
        var threw := WriteOutput(entries[i].0, entries[i].1, faults(entries[i].0));
        if threw { failed := true; }
      }
    }

    method Run(paths: seq<string>, actions: seq<Action>, signalled: bool, faults: string -> Fault) returns (r: Outcome)
      requires rollbackSnapshot == None && seen == [files]
      modifies this
      ensures (Now(), r) == RunWithRollback(old(files), paths, actions, signalled, faults)
    {
      var threw := false;
      var i := 0;
      assert actions[0..] == actions;
      while i < |actions| && !threw
        invariant 0 <= i <= |actions|
        invariant if threw then Operate(old(Now()), paths, actions) == (Now(), true)
                  else Operate(Now(), paths, actions[i..]) == Operate(old(Now()), paths, actions)
        decreases |actions| - i
      {
        assert actions[i..][0] == actions[i] && actions[i..][1..] == actions[i + 1..];
        threw := Perform(paths, actions[i]);
        i := i + 1;
      }
      if !threw && !signalled {
        rollbackSnapshot := None;
        return Returned;
      }
      if rollbackSnapshot.None? { return Threw; }
      var failed := RestoreAll(rollbackSnapshot.value, faults);
      r := if failed then RollbackFailed else Threw;
    }
  }

  // ---- main results ----

  /** The files when the operation arms, if it gets there. */
  function AtArming(s: State, paths: seq<string>, actions: seq<Action>): Option<Files>
    decreases |actions|
  {
    if actions == [] then None
    else if actions[0].Arm? then Some(s.files)
    else
      var (next, threw) := Act(s, paths, actions[0]);
      if threw then None else AtArming(next, paths, actions[1..])
  }

  /** The snapshot lists outputs with their contents at arming. */
  ghost predicate Snapshots(entries: seq<(string, string)>, paths: seq<string>, armed: Files)
  {
    forall entry <- entries :: entry.0 in paths && entry.0 in armed && entry.1 == armed[entry.0]
  }

  ghost predicate Lists(entries: seq<(string, string)>, path: string) { exists entry <- entries :: entry.0 == path }

  lemma {:induction false} ReadAllSnapshots(files: Files, paths: seq<string>, readable: nat)
    ensures Snapshots(ReadAll(files, paths, readable), paths, files)
    ensures |ReadAll(files, paths, readable)| <= |paths|
    ensures |ReadAll(files, paths, readable)| == |paths| ==>
              forall path <- paths :: path in files && Lists(ReadAll(files, paths, readable), path)
    decreases |paths|
  {
    if !(paths == [] || readable == 0 || paths[0] !in files) {
      var read, rest := ReadAll(files, paths, readable), ReadAll(files, paths[1..], readable - 1);
      ReadAllSnapshots(files, paths[1..], readable - 1);
      assert read == [(paths[0], files[paths[0]])] + rest;
      assert forall path :: path in paths <==> path == paths[0] || path in paths[1..];
      forall entry | entry in read ensures entry.0 in paths && entry.0 in files && entry.1 == files[entry.0] {
        assert entry == read[0] || entry in rest;
      }
      if |read| == |paths| {
        forall path | path in paths ensures path in files && Lists(read, path) {
          if path == paths[0] {
            assert read[0] in read;
          } else {
            var entry :| entry in rest && entry.0 == path;
            assert entry in read;
          }
        }
      }
    }
  }

  /** After arming: the snapshot is complete, or the arming itself failed and nothing has changed since. */
  ghost predicate Armed(s: State, paths: seq<string>, armed: Files)
  {
    && s.snapshot.Some? && Snapshots(s.snapshot.value, paths, armed)
    && ((forall path <- paths :: path in armed && Lists(s.snapshot.value, path)) || s.files == armed)
  }

  lemma {:induction false} ArmedStays(s: State, paths: seq<string>, actions: seq<Action>, armed: Files)
    requires s.snapshot.Some? && Snapshots(s.snapshot.value, paths, armed)
    requires forall path <- paths :: path in armed && Lists(s.snapshot.value, path)
    ensures Armed(Operate(s, paths, actions).0, paths, armed)
    decreases |actions|
  {
    if actions != [] {
      var (next, threw) := Act(s, paths, actions[0]);
      if !threw { ArmedStays(next, paths, actions[1..], armed); }
    }
  }

  lemma {:induction false} OperateArms(s: State, paths: seq<string>, actions: seq<Action>)
    requires s.snapshot.None?
    ensures Operate(s, paths, actions).0.snapshot.Some? <==> AtArming(s, paths, actions).Some?
    ensures AtArming(s, paths, actions).Some? ==>
              Armed(Operate(s, paths, actions).0, paths, AtArming(s, paths, actions).value)
    decreases |actions|
  {
    if actions != [] {
      var (next, threw) := Act(s, paths, actions[0]);
      if actions[0].Arm? {
        ReadAllSnapshots(s.files, paths, actions[0].readable);
        hide Snapshots, Lists;
        if !threw {
          ArmedStays(next, paths, actions[1..], s.files);
        }
      } else if !threw {
        OperateArms(next, paths, actions[1..]);
      }
    }
  }

  /** What the restore loop leaves in one file. */
  lemma {:induction false} RestoreSets(
      s: State, entries: seq<(string, string)>, faults: string -> Fault, paths: seq<string>, armed: Files, path: string)
    requires Snapshots(entries, paths, armed)
    ensures var files := Restore(s, entries, faults).0.files;
            if Lists(entries, path) && faults(path) != BeforeRename then path in files && path in armed && files[path] == armed[path]
            else (path in files <==> path in s.files) && (path in files ==> files[path] == s.files[path])
    decreases |entries|
  {
    if entries != [] {
      var (first, contents) := entries[0];
      var rest := entries[1..];
      assert entries[0] in entries && forall entry <- rest :: entry in entries;
      RestoreSets(WriteAtomic(s, first, contents, faults(first)), rest, faults, paths, armed, path);
      assert Lists(entries, path) <==> first == path || Lists(rest, path) by {
        assert forall entry :: entry in entries <==> entry == entries[0] || entry in rest;
      }
    }
  }

  ghost predicate SameOutput(a: Files, b: Files, path: string)
  {
    (path in a <==> path in b) && (path in a ==> a[path] == b[path])
  }

  /** After a failure past arming an output is as it was then, exactly unless its restore failed and it had changed. */
  lemma RolledBackExactly(
      files: Files, paths: seq<string>, actions: seq<Action>, signalled: bool, faults: string -> Fault, path: string)
    requires path in paths
    requires AtArming(State(files, None, [files]), paths, actions).Some?
    requires RunWithRollback(files, paths, actions, signalled, faults).1 != Returned
    ensures var start := State(files, None, [files]); var armed := AtArming(start, paths, actions).value;
            var failed := Operate(start, paths, actions).0.files;
            SameOutput(RunWithRollback(files, paths, actions, signalled, faults).0.files, armed, path) <==>
            faults(path) != BeforeRename || SameOutput(failed, armed, path)
  {
    var start := State(files, None, [files]);
    OperateArms(start, paths, actions);
    var armed := AtArming(start, paths, actions).value;
    var s := Operate(start, paths, actions).0;
    RestoreSets(s, s.snapshot.value, faults, paths, armed, path);
  }

  /**
   All or nothing. The wrapper returns exactly when nothing threw and no signal was noticed, and then
   all writes stand; otherwise, if every restore reaches its rename, every output is as it was when the
   operation armed.
   */
  lemma AllOrNothing(
      files: Files, paths: seq<string>, actions: seq<Action>, signalled: bool, faults: string -> Fault)
    ensures var (s, outcome) := RunWithRollback(files, paths, actions, signalled, faults);
            var start := State(files, None, [files]);
            && (outcome == Returned <==> !signalled && !Operate(start, paths, actions).1)
            && (outcome == Returned ==> s.files == Applied(files, actions))
            && (outcome != Returned && AtArming(start, paths, actions).Some?
                && (forall path <- paths :: faults(path) != BeforeRename) ==>
                  forall path <- paths :: SameOutput(s.files, AtArming(start, paths, actions).value, path))
  {
    var start := State(files, None, [files]);
    var (s, outcome) := RunWithRollback(files, paths, actions, signalled, faults);
    if outcome == Returned {
      ReturnedApplies(start, paths, actions);
    } else if AtArming(start, paths, actions).Some? && forall path <- paths :: faults(path) != BeforeRename {
      forall path | path in paths ensures SameOutput(s.files, AtArming(start, paths, actions).value, path) {
        RolledBackExactly(files, paths, actions, signalled, faults, path);
      }
    }
  }

  /** The failed rollback is reported exactly when the restore of some snapshot entry failed; otherwise the first error is. */
  lemma {:induction false} RestoreFails(s: State, entries: seq<(string, string)>, faults: string -> Fault)
    ensures Restore(s, entries, faults).1 <==> exists entry <- entries :: faults(entry.0) != NoFault
    decreases |entries|
  {
    if entries != [] {
      RestoreFails(WriteAtomic(s, entries[0].0, entries[0].1, faults(entries[0].0)), entries[1..], faults);
      assert entries == [entries[0]] + entries[1..];
    }
  }

  /** Restoring fails as a whole when one write fails, and the caller learns it. */
  lemma OutcomeExactly(
      files: Files, paths: seq<string>, actions: seq<Action>, signalled: bool, faults: string -> Fault)
    ensures var (failed, threw) := Operate(State(files, None, [files]), paths, actions);
            RunWithRollback(files, paths, actions, signalled, faults).1 ==
            if !threw && !signalled then Returned
            else if failed.snapshot.Some? && exists entry <- failed.snapshot.value :: faults(entry.0) != NoFault
            then RollbackFailed
            else Threw
  {
    var s := Operate(State(files, None, [files]), paths, actions).0;
    if s.snapshot.Some? { RestoreFails(s, s.snapshot.value, faults); }
  }

  /** The read of this output fails. */
  ghost predicate Unread(files: Files, paths: seq<string>, readable: nat, i: int)
  {
    0 <= i < |paths| && (i >= readable || paths[i] !in files)
  }

  /** A repeated arming throws, and so does one that cannot read every output; nothing is written by either. */
  lemma ArmsOnce(s: State, paths: seq<string>, readable: nat)
    ensures Act(s, paths, Arm(readable)).1 <==>
            s.snapshot.Some? || exists i :: Unread(s.files, paths, readable, i)
    ensures Act(s, paths, Arm(readable)).0.files == s.files && Act(s, paths, Arm(readable)).0.seen == s.seen
  {
    if s.snapshot.None? { AllRead(s.files, paths, readable); }
  }

  lemma {:induction false} AllRead(files: Files, paths: seq<string>, readable: nat)
    ensures |ReadAll(files, paths, readable)| < |paths| <==>
            exists i :: Unread(files, paths, readable, i)
    decreases |paths|
  {
    if paths == [] {
    } else if readable == 0 || paths[0] !in files {
      assert Unread(files, paths, readable, 0);
    } else {
      var rest, fewer := paths[1..], readable - 1;
      AllRead(files, rest, fewer);
      assert forall i :: Unread(files, rest, fewer, i) ==> Unread(files, paths, readable, i + 1);
      assert forall i :: Unread(files, paths, readable, i) ==> Unread(files, rest, fewer, i - 1);
    }
  }

  /** All writes of an operation, in order. */
  function Applied(files: Files, actions: seq<Action>): Files
    decreases |actions|
  {
    if actions == [] then files
    else Applied(if actions[0].Write? then files[actions[0].path := actions[0].contents] else files, actions[1..])
  }

  lemma {:induction false} ReturnedApplies(s: State, paths: seq<string>, actions: seq<Action>)
    requires !Operate(s, paths, actions).1
    ensures Operate(s, paths, actions).0.files == Applied(s.files, actions)
    decreases |actions|
  {
    if actions != [] { ReturnedApplies(Act(s, paths, actions[0]).0, paths, actions[1..]); }
  }

  /** The contents are the old ones of the file, or the whole of some write to it. */
  ghost predicate Whole(files: Files, actions: seq<Action>, path: string, contents: string)
  {
    || (path in files && files[path] == contents)
    || (exists a <- actions :: a.Write? && a.path == path && a.contents == contents)
  }

  ghost predicate AllWhole(s: State, files: Files, actions: seq<Action>)
  {
    && s.files in s.seen
    && (forall state <- s.seen, path | path in state :: Whole(files, actions, path, state[path]))
  }

  ghost predicate WholeEntries(entries: seq<(string, string)>, files: Files, actions: seq<Action>)
  {
    forall entry <- entries :: Whole(files, actions, entry.0, entry.1)
  }

  lemma WriteWhole(s: State, path: string, contents: string, fault: Fault, files: Files, actions: seq<Action>)
    requires AllWhole(s, files, actions) && Whole(files, actions, path, contents)
    ensures AllWhole(WriteAtomic(s, path, contents, fault), files, actions)
  {
    var s' := WriteAtomic(s, path, contents, fault);
    hide Whole;
    forall state, p | state in s'.seen && p in state ensures Whole(files, actions, p, state[p]) {
      if state !in s.seen { assert p == path || (p in s.files && state[p] == s.files[p]); }
    }
  }

  lemma {:induction false} OperateWhole(s: State, paths: seq<string>, todo: seq<Action>, files: Files, actions: seq<Action>)
    requires AllWhole(s, files, actions) && forall a <- todo :: a in actions
    requires s.snapshot.Some? ==> WholeEntries(s.snapshot.value, files, actions)
    ensures var end := Operate(s, paths, todo).0;
            AllWhole(end, files, actions) && (end.snapshot.Some? ==> WholeEntries(end.snapshot.value, files, actions))
    decreases |todo|
  {
    if todo != [] {
      var a := todo[0];
      assert a in actions;
      match a {
        case Throw =>
        case Write(path, contents, fault) =>
          assert Whole(files, actions, path, contents);
          WriteWhole(s, path, contents, fault, files, actions);
        case Arm(readable) =>
          ReadAllSnapshots(s.files, paths, readable);
          assert forall path | path in s.files :: Whole(files, actions, path, s.files[path]);
      }
      var (next, threw) := Act(s, paths, a);
      hide AllWhole, Whole, Snapshots;
      if !threw { OperateWhole(next, paths, todo[1..], files, actions); }
    }
  }

  lemma {:induction false} RestoreWhole(
      s: State, entries: seq<(string, string)>, faults: string -> Fault, files: Files, actions: seq<Action>)
    requires AllWhole(s, files, actions) && WholeEntries(entries, files, actions)
    ensures AllWhole(Restore(s, entries, faults).0, files, actions)
    decreases |entries|
  {
    if entries != [] {
      var (path, contents) := entries[0];
      assert entries[0] in entries;
      WriteWhole(s, path, contents, faults(path), files, actions);
      hide AllWhole, Whole;
      RestoreWhole(WriteAtomic(s, path, contents, faults(path)), entries[1..], faults, files, actions);
    }
  }

  /** In every state the files pass through, rollback included, each is wholly old or wholly one of the new versions. */
  lemma AlwaysWhole(files: Files, paths: seq<string>, actions: seq<Action>, signalled: bool, faults: string -> Fault)
    ensures AllWhole(RunWithRollback(files, paths, actions, signalled, faults).0, files, actions)
  {
    var start := State(files, None, [files]);
    OperateWhole(start, paths, actions, files, actions);
    var s := Operate(start, paths, actions).0;
    if s.snapshot.Some? { RestoreWhole(s, s.snapshot.value, faults, files, actions); }
  }
}
