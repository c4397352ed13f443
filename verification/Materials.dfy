/** session.py: what the files in tunnel-data/ hold, over whole runs, and when one takes the place of another. */
module Materials {
  import opened SessionProtocol
  import opened SessionSafety

  /** The files that process p writes in a run, in order: names and contents, daemon.pid among them. */
  function WritesOf(steps: seq<Step>, p: Pid): seq<(string, string)>
    decreases |steps|
  {
    if steps == [] then [] else WriteOf(steps[0], p) + WritesOf(steps[1..], p)
  }

  function WriteOf(step: Step, p: Pid): seq<(string, string)> {
    if step.Materialize? && step.p == p then [(step.name, step.content)]
    else if step.WriteIdentity? && step.p == p then [(DAEMON_PID, IdentityFile(p).content)]
    else []
  }

  /** Name by name, what was there at first or was written last. */
  function After(files: map<string, string>, writes: seq<(string, string)>): map<string, string>
    decreases |writes|
  {
    if writes == [] then files else After(files[writes[0].0 := writes[0].1], writes[1..])
  }

  /** A stage from which a process may still come to serve. */
  predicate HasNotServed(stage: Stage) {
    !(stage.Serving? || stage.Dropped? || stage.Unlinked? || stage.Closed? || stage.Finished? || stage.Crashed?)
  }

  /** While p serves, tunnel-data/ holds just these files, all p's; before that p has written none. */
  ghost predicate Holds(s: State, p: Pid, files: map<string, string>) {
    && (HasNotServed(StageOf(s, p)) ==> files == map[])
    && (StageOf(s, p).Serving? ==>
          && s.slot.Directory?
          && s.slot.files.Keys == files.Keys
          && (forall name | name in files :: s.slot.files[name] == File(p, files[name])))
  }

  /** Nobody else touches the directory of a serving daemon. */
  lemma SlotIsLeftAlone(s: State, step: Step, p: Pid)
    requires DataOwned(s) && Enabled(s, step) && DataGuard(s, step)
    requires StageOf(s, p).Serving? && (step.StopCleanup? || step.p != p)
    ensures Apply(s, step).slot == s.slot
  {
    ExclusiveMeansOneActive(s);
    assert IsActive(s, p);
    if !step.StopCleanup? {
      assert !IsActive(s, step.p);
    }
  }

  lemma OtherStepHolds(s: State, step: Step, p: Pid, files: map<string, string>)
    requires DataOwned(s) && Enabled(s, step) && DataGuard(s, step)
    requires Holds(s, p, files) && (step.StopCleanup? || step.p != p)
    ensures Holds(Apply(s, step), p, files)
  {
    StepFrame(s, step, p);
    if StageOf(s, p).Serving? {
      SlotIsLeftAlone(s, step, p);
    }
  }

  lemma OwnStepHolds(s: State, step: Step, p: Pid, files: map<string, string>)
    requires OwnsData(s, p) && Enabled(s, step) && !step.StopCleanup? && step.p == p && Holds(s, p, files)
    ensures Holds(Apply(s, step), p, After(files, WriteOf(step, p)))
  {
    assert WriteOf(step, p) != [] ==> WriteOf(step, p)[1..] == [];
  }

  lemma {:induction false} AfterConcat(files: map<string, string>, a: seq<(string, string)>, b: seq<(string, string)>)
    ensures After(files, a + b) == After(After(files, a), b)
    decreases |a|
  {
    if a == [] {
      assert a + b == b;
    } else {
      assert (a + b)[1..] == a[1..] + b;
      AfterConcat(files[a[0].0 := a[0].1], a[1..], b);
    }
  }

  lemma {:induction false} RunHolds(s: State, steps: seq<Step>, p: Pid, files: map<string, string>)
    requires DataOwned(s) && IsGuardedRun(s, steps) && Holds(s, p, files)
    ensures IsRun(s, steps) && Holds(Exec(s, steps), p, After(files, WritesOf(steps, p)))
    decreases |steps|
  {
    if steps != [] {
      var step, writes := steps[0], WriteOf(steps[0], p);
      StepKeepsData(s, step);
      if step.StopCleanup? || step.p != p {
        OtherStepHolds(s, step, p, files);
      } else {
        OwnStepHolds(s, step, p, files);
      }
      RunHolds(Apply(s, step), steps[1..], p, After(files, writes));
      AfterConcat(files, writes, WritesOf(steps[1..], p));
    }
  }

  /** In every run within both guards, a serving daemon's files are those it wrote, each as it wrote it last. */
  lemma FilesAreAsWritten(s0: State, steps: seq<Step>, p: Pid)
    requires Initial(s0) && IsGuardedRun(s0, steps)
    ensures IsRun(s0, steps)
    ensures var s, files := Exec(s0, steps), After(map[], WritesOf(steps, p));
      StageOf(s, p).Serving? ==>
        && s.slot.Directory?
        && s.slot.files.Keys == files.Keys
        && (forall name | name in files :: s.slot.files[name] == File(p, files[name]))
  {
    InitialIsExclusive(s0);
    assert forall q: Pid :: StageOf(s0, q).Idle?;
    RunHolds(s0, steps, p, map[]);
  }

  // ---------------------------------------------------------------- files in each other's way

  lemma {:induction false} AfterIsLast(files: map<string, string>, writes: seq<(string, string)>, i: nat)
    returns (k: nat)
    requires i < |writes|
    ensures i <= k < |writes| && writes[k].0 == writes[i].0
    ensures writes[i].0 in After(files, writes) && After(files, writes)[writes[i].0] == writes[k].1
    decreases |writes|
  {
    var last := |writes| - 1;
    var front := writes[..last];
    assert writes == front + [writes[last]];
    AfterConcat(files, front, [writes[last]]);
    assert [writes[last]][1..] == [];
    if writes[last].0 == writes[i].0 {
      k := last;
    } else {
      k := AfterIsLast(files, front, i);
    }
  }

  /** Every file ends up with what its own write put there exactly if no two writes differ under one name. */
  lemma EveryWriteLastsExactlyIf(files: map<string, string>, writes: seq<(string, string)>)
    ensures (forall i | 0 <= i < |writes| ::
               writes[i].0 in After(files, writes) && After(files, writes)[writes[i].0] == writes[i].1)
      <==> forall i, j | 0 <= i < j < |writes| && writes[i].0 == writes[j].0 :: writes[i].1 == writes[j].1
  {
    var after := After(files, writes);
    if forall i, j | 0 <= i < j < |writes| && writes[i].0 == writes[j].0 :: writes[i].1 == writes[j].1 {
      forall i | 0 <= i < |writes|
        ensures writes[i].0 in after && after[writes[i].0] == writes[i].1
      {
        var k := AfterIsLast(files, writes, i);
      }
    }
  }

  /** The same of a daemon's files on disk: each holds its own content exactly if no two names collide. */
  lemma MaterialsHoldTheirOwnExactlyIf(s0: State, steps: seq<Step>, p: Pid)
    requires Initial(s0) && IsGuardedRun(s0, steps) && IsRun(s0, steps) && StageOf(Exec(s0, steps), p).Serving?
    ensures var slot, writes := Exec(s0, steps).slot, WritesOf(steps, p);
      && slot.Directory?
      && ((forall i | 0 <= i < |writes| ::
             writes[i].0 in slot.files && slot.files[writes[i].0].content == writes[i].1)
          <==> forall i, j | 0 <= i < j < |writes| && writes[i].0 == writes[j].0 :: writes[i].1 == writes[j].1)
  {
    FilesAreAsWritten(s0, steps, p);
    EveryWriteLastsExactlyIf(map[], WritesOf(steps, p));
  }
}
