/**
 What every run of the session protocol keeps. Statements about lock records need no assumption.
 Mutual exclusion needs `LockGuard` and the contents of tunnel-data/ need `DataGuard`; each guard
 is shown to be exact.
 */
module SessionSafety {
  import opened Wrappers
  import opened SessionProtocol

  // ---------------------------------------------------------------- unconditional bookkeeping

  /** Process p's descriptor, flock and pid line agree with the kernel's tables. */
  predicate Consistent(s: State, p: Pid) {
    var i := InodeOf(s, p);
    && (HasDescriptor(StageOf(s, p)) ==> i < s.next && i in s.record)
    && (HoldsFlock(StageOf(s, p)) ==> i in s.holder && s.holder[i] == p)
    && (HasRecorded(StageOf(s, p)) ==> s.record[i] == PidLine(p))
  }

  /** Flocks and descriptors agree, and from the pid write on a lock record is its holder's. */
  ghost predicate LocksConsistent(s: State) {
    && (s.path.Some? ==> s.path.value < s.next)
    && (forall i: Inode :: i in s.record <==> i < s.next)
    && (forall i | i in s.holder :: HoldsFlock(StageOf(s, s.holder[i])) && InodeOf(s, s.holder[i]) == i)
    && (forall p: Pid :: Consistent(s, p))
  }

  /** A step of one process leaves every other process where it was. */
  lemma StepFrame(s: State, step: Step, q: Pid)
    requires Enabled(s, step)
    ensures step.StopCleanup? || q != step.p ==> ProcessOf(Apply(s, step), q) == ProcessOf(s, q)
  {
  }

  /** What is consistent about q stays so, as long as q and what q holds are left alone. */
  lemma OtherStaysConsistent(s: State, s': State, q: Pid)
    requires Consistent(s, q) && ProcessOf(s', q) == ProcessOf(s, q)
    requires var i := InodeOf(s, q);
      && (i < s.next ==> i < s'.next) && (i in s.record ==> i in s'.record)
      && (HoldsFlock(StageOf(s, q)) && i in s.holder ==> i in s'.holder && s'.holder[i] == s.holder[i])
      && (HasRecorded(StageOf(s, q)) && i in s.record && i in s'.record ==> s'.record[i] == s.record[i])
    ensures Consistent(s', q)
  {
  }

  /** Process p moves without touching the kernel's tables; the path and tunnel-data may change. */
  lemma MoveKeepsLocks(s: State, s': State, p: Pid, stage: Stage)
    requires LocksConsistent(s)
    requires s' == Enter(s, p, stage).(path := s'.path, slot := s'.slot)
    requires s'.path == s.path || s'.path.None?
    requires HasDescriptor(stage) ==> HasDescriptor(StageOf(s, p))
    requires HoldsFlock(stage) == HoldsFlock(StageOf(s, p))
    requires HasRecorded(stage) ==> HasRecorded(StageOf(s, p))
    ensures LocksConsistent(s')
  {
    assert Consistent(s, p) && Consistent(s', p);
    forall q: Pid
      ensures Consistent(s', q)
    {
      assert Consistent(s, q);
      if q != p {
        OtherStaysConsistent(s, s', q);
      }
    }
  }

  /** Process p opens the file that the path names. */
  lemma OpenNamedKeepsLocks(s: State, p: Pid, stage: Stage)
    requires LocksConsistent(s) && StageOf(s, p).Idle? && s.path.Some? && !HoldsFlock(stage)
    ensures LocksConsistent(s.(procs := s.procs[p := Process(stage, s.path.value)]))
  {
    var s' := s.(procs := s.procs[p := Process(stage, s.path.value)]);
    forall q: Pid
      ensures Consistent(s', q)
    {
      assert Consistent(s, q);
    }
  }

  /** Process p creates the file, since the path names none. */
  lemma OpenFreshKeepsLocks(s: State, p: Pid)
    requires LocksConsistent(s) && StageOf(s, p).Idle? && s.path.None?
    ensures LocksConsistent(OpenCreate(s, p))
  {
    var s' := OpenCreate(s, p);
    forall q: Pid
      ensures Consistent(s', q)
    {
      assert Consistent(s, q);
    }
  }

  lemma WinKeepsLocks(s: State, p: Pid, won: Stage)
    requires LocksConsistent(s) && HasDescriptor(StageOf(s, p)) && !HoldsFlock(StageOf(s, p))
    requires InodeOf(s, p) !in s.holder && HasDescriptor(won) && HoldsFlock(won) && !HasRecorded(won)
    ensures LocksConsistent(Enter(s.(holder := s.holder[InodeOf(s, p) := p]), p, won))
  {
    assert Consistent(s, p);
    var s' := Enter(s.(holder := s.holder[InodeOf(s, p) := p]), p, won);
    forall q: Pid
      ensures Consistent(s', q)
    {
      assert Consistent(s, q);
    }
  }

  lemma TryFlockKeepsLocks(s: State, p: Pid, won: Stage, lost: Stage)
    requires LocksConsistent(s) && HasDescriptor(StageOf(s, p)) && !HoldsFlock(StageOf(s, p))
    requires HasDescriptor(won) && HoldsFlock(won) && !HasRecorded(won) && !HasDescriptor(lost)
    ensures LocksConsistent(TryFlock(s, p, won, lost))
  {
    if InodeOf(s, p) in s.holder {
      MoveKeepsLocks(s, Enter(s, p, lost), p, lost);
    } else {
      WinKeepsLocks(s, p, won);
    }
  }

  lemma UnflockKeepsLocks(s: State, p: Pid, stage: Stage)
    requires LocksConsistent(s) && HoldsFlock(StageOf(s, p)) && !HasDescriptor(stage) && !HoldsFlock(stage)
    ensures LocksConsistent(Enter(Unflock(s, p), p, stage))
  {
    var s' := Enter(Unflock(s, p), p, stage);
    assert Consistent(s, p) && Consistent(s', p);
    forall q: Pid
      ensures Consistent(s', q)
    {
      assert Consistent(s, q);
      if q != p {
        OtherStaysConsistent(s, s', q);
      }
    }
  }

  lemma RecordKeepsLocks(s: State, p: Pid, content: Content, stage: Stage)
    requires LocksConsistent(s) && HoldsFlock(StageOf(s, p)) && HasDescriptor(stage) && HoldsFlock(stage)
    requires HasRecorded(stage) ==> content == PidLine(p)
    ensures LocksConsistent(Enter(Record(s, p, content), p, stage))
  {
    var s' := Enter(Record(s, p, content), p, stage);
    assert Consistent(s, p) && Consistent(s', p);
    forall q: Pid
      ensures Consistent(s', q)
    {
      assert Consistent(s, q);
      if q != p {
        OtherStaysConsistent(s, s', q);
      }
    }
  }

  lemma StepKeepsLocks(s: State, step: Step)
    requires LocksConsistent(s) && Enabled(s, step)
    ensures LocksConsistent(Apply(s, step))
  {
    match step
    case Open(p) =>
      if s.path.Some? {
        OpenNamedKeepsLocks(s, p, Opened);
      } else {
        OpenFreshKeepsLocks(s, p);
      }
    case Flock(p) => TryFlockKeepsLocks(s, p, Locked, Finished);
    case Truncate(p) => RecordKeepsLocks(s, p, Blank, Truncated);
    case WritePid(p) => RecordKeepsLocks(s, p, PidLine(p), Recorded);
    case Close(p) => UnflockKeepsLocks(s, p, if StageOf(s, p).Dropped? then Finished else Closed);
    case Crash(p) => CrashKeepsLocks(s, p);
    case ProbeOpen(p) => OpenNamedKeepsLocks(s, p, ProbeOpened);
    case ProbeFlock(p) => TryFlockKeepsLocks(s, p, ProbeLocked, Idle);
    case ProbeClose(p) => UnflockKeepsLocks(s, p, Idle);
    case StopCleanup => SlotKeepsLocks(s, Removed(s).slot);
    case Materialize(p, _, _) => SlotKeepsLocks(s, Apply(s, step).slot);
    case _ => DirectoryStepKeepsLocks(s, step);
  }

  lemma CrashKeepsLocks(s: State, p: Pid)
    requires LocksConsistent(s) && Enabled(s, Crash(p))
    ensures LocksConsistent(Apply(s, Crash(p)))
  {
    if HoldsFlock(StageOf(s, p)) {
      UnflockKeepsLocks(s, p, Crashed);
    } else {
      MoveKeepsLocks(s, Enter(s, p, Crashed), p, Crashed);
    }
  }

  lemma DirectoryStepKeepsLocks(s: State, step: Step)
    requires LocksConsistent(s) && Enabled(s, step)
    requires step.Reclaim? || step.Mkdir? || step.WriteIdentity? || step.Fail? || step.Unlink? || step.RemoveTree?
    ensures LocksConsistent(Apply(s, step))
  {
    MoveKeepsLocks(s, Apply(s, step), step.p, StageOf(Apply(s, step), step.p));
  }

  lemma SlotKeepsLocks(s: State, slot: Slot)
    requires LocksConsistent(s)
    ensures LocksConsistent(s.(slot := slot))
  {
    forall q: Pid
      ensures Consistent(s.(slot := slot), q)
    {
      assert Consistent(s, q);
    }
  }

  /** Only the process that holds an inode's flock changes what the inode holds. */
  lemma OnlyHolderWrites(s: State, step: Step, i: Inode)
    requires LocksConsistent(s) && Enabled(s, step)
    requires i in s.record && Apply(s, step).record[i] != s.record[i]
    ensures i in s.holder
    ensures step == Truncate(s.holder[i]) || step == WritePid(s.holder[i])
  {
    assert step.StopCleanup? || Consistent(s, step.p);
  }

  lemma {:induction false} RunKeepsLocks(s: State, steps: seq<Step>)
    requires LocksConsistent(s) && IsRun(s, steps)
    ensures LocksConsistent(Exec(s, steps))
    decreases |steps|
  {
    if steps != [] {
      StepKeepsLocks(s, steps[0]);
      RunKeepsLocks(Apply(s, steps[0]), steps[1..]);
    }
  }

  /**
   Every pid record is its owner's, in every run and with no guard: from the pid write until the
   descriptor closes, a process's lock file holds its pid, and whatever step comes next, an
   inode's content changes only by a truncate or pid write of the process that holds its flock.
   */
  lemma PidRecordsBelongToTheirOwner(s0: State, steps: seq<Step>, step: Step)
    requires Initial(s0) && IsRun(s0, steps) && Enabled(Exec(s0, steps), step)
    ensures var s := Exec(s0, steps);
      && (forall p: Pid | HasRecorded(StageOf(s, p)) ::
            InodeOf(s, p) in s.record && s.record[InodeOf(s, p)] == PidLine(p))
      && (forall i | i in s.record && Apply(s, step).record[i] != s.record[i] ::
            i in s.holder && (step == Truncate(s.holder[i]) || step == WritePid(s.holder[i])))
  {
    RunKeepsLocks(s0, steps);
    var s := Exec(s0, steps);
    forall p: Pid | HasRecorded(StageOf(s, p))
      ensures InodeOf(s, p) in s.record && s.record[InodeOf(s, p)] == PidLine(p)
    {
      assert Consistent(s, p);
    }
    forall i | i in s.record && Apply(s, step).record[i] != s.record[i]
      ensures i in s.holder && (step == Truncate(s.holder[i]) || step == WritePid(s.holder[i]))
    {
      OnlyHolderWrites(s, step, i);
    }
  }

  // ---------------------------------------------------------------- mutual exclusion

  /** The step takes the name session.lock away: a release, or the removal of a generated directory. */
  predicate DropsName(s: State, step: Step) {
    step.Unlink? || (step.RemoveTree? && s.generatedBy == Some(step.p))
  }

  /**
   No contender sits between open and flock when a holder unlinks, and a generated directory is
   removed whole only while no other process contends for it or has won it.
   */
  ghost predicate LockGuard(s: State, step: Step) {
    DropsName(s, step) ==> forall q: Pid | q != step.p :: !StageOf(s, q).Opened? && !IsActive(s, q)
  }

  ghost predicate IsLockGuardedRun(s: State, steps: seq<Step>)
    decreases |steps|
  {
    steps == []
    || (Enabled(s, steps[0]) && LockGuard(s, steps[0]) && IsLockGuardedRun(Apply(s, steps[0]), steps[1..]))
  }

  /** Process p, if a contender or active, is on the inode that session.lock names. */
  predicate OnPath(s: State, p: Pid) {
    StageOf(s, p).Opened? || IsActive(s, p) ==> s.path == Some(InodeOf(s, p))
  }

  ghost predicate Exclusive(s: State) {
    LocksConsistent(s) && forall p: Pid :: OnPath(s, p)
  }

  /** How a step may change the name: not at all, by dropping it, or by creating a file that nobody has open. */
  lemma StepNames(s: State, step: Step)
    requires Enabled(s, step)
    ensures var path := Apply(s, step).path;
      || path == s.path
      || (path.None? && DropsName(s, step))
      || (s.path.None? && path == Some(s.next))
  {
  }

  /** A process that a step leaves alone stays on the path, unless the step drops its name. */
  lemma OtherStaysOnPath(s: State, s': State, q: Pid)
    requires Consistent(s, q) && OnPath(s, q) && ProcessOf(s', q) == ProcessOf(s, q)
    requires s'.path == s.path || s.path.None? || !(StageOf(s, q).Opened? || IsActive(s, q))
    ensures OnPath(s', q)
  {
  }

  lemma OwnStaysOnPath(s: State, step: Step)
    requires !step.StopCleanup? && Enabled(s, step) && OnPath(s, step.p)
    ensures OnPath(Apply(s, step), step.p)
  {
  }

  lemma StepKeepsExclusive(s: State, step: Step)
    requires Exclusive(s) && Enabled(s, step) && LockGuard(s, step)
    ensures Exclusive(Apply(s, step))
  {
    StepKeepsLocks(s, step);
    StepNames(s, step);
    forall q: Pid
      ensures OnPath(Apply(s, step), q)
    {
      assert OnPath(s, q) && Consistent(s, q);
      if step.StopCleanup? || q != step.p {
        StepFrame(s, step, q);
        OtherStaysOnPath(s, Apply(s, step), q);
      } else {
        OwnStaysOnPath(s, step);
      }
    }
  }

  /** At most one process is active, and its inode is the one the path names. */
  ghost predicate OneActive(s: State) {
    && (forall p: Pid, q: Pid | IsActive(s, p) && IsActive(s, q) :: p == q)
    && (forall p: Pid | IsActive(s, p) :: s.path == Some(InodeOf(s, p)))
  }

  lemma {:induction false} GuardedRunIsRun(s: State, steps: seq<Step>)
    requires IsLockGuardedRun(s, steps)
    ensures IsRun(s, steps)
    decreases |steps|
  {
    if steps != [] {
      GuardedRunIsRun(Apply(s, steps[0]), steps[1..]);
    }
  }

  lemma {:induction false} GuardedRunKeepsExclusive(s: State, steps: seq<Step>)
    requires Exclusive(s) && IsLockGuardedRun(s, steps)
    ensures IsRun(s, steps) && Exclusive(Exec(s, steps))
    decreases |steps|
  {
    if steps != [] {
      StepKeepsExclusive(s, steps[0]);
      GuardedRunKeepsExclusive(Apply(s, steps[0]), steps[1..]);
    }
  }

  lemma ExclusiveMeansOneActive(s: State)
    requires Exclusive(s)
    ensures OneActive(s)
  {
    forall p: Pid | IsActive(s, p)
      ensures s.path == Some(InodeOf(s, p)) && InodeOf(s, p) in s.holder && s.holder[InodeOf(s, p)] == p
    {
      assert OnPath(s, p) && Consistent(s, p);
    }
  }

  lemma InitialIsExclusive(s: State)
    requires Initial(s)
    ensures Exclusive(s)
  {
  }

  /** At most one daemon at a time, over every guarded run of any number of starts, crashes and stops. */
  lemma MutualExclusion(s0: State, steps: seq<Step>)
    requires Initial(s0) && IsLockGuardedRun(s0, steps)
    ensures IsRun(s0, steps) && OneActive(Exec(s0, steps))
  {
    InitialIsExclusive(s0);
    GuardedRunKeepsExclusive(s0, steps);
    ExclusiveMeansOneActive(Exec(s0, steps));
  }

  /** Some continuation, itself within the guard, ends with two daemons or with one off the path. */
  ghost predicate CanBreak(s: State) {
    exists steps :: IsLockGuardedRun(s, steps) && IsRun(s, steps) && !OneActive(Exec(s, steps))
  }

  lemma FreshPid(used: set<Pid>) returns (p: Pid)
    ensures p !in used
  {
    var rest := used;
    var bound: Pid := 0;
    while rest != {}
      invariant rest <= used
      invariant forall q: Pid | q in used && q !in rest :: q < bound
      decreases |rest|
    {
      var q :| q in rest;
      rest := rest - {q};
      bound := if q < bound then bound else q + 1;
    }
    p := bound;
  }

  lemma BreakLater(s: State, step: Step)
    requires Enabled(s, step) && !DropsName(s, step) && CanBreak(Apply(s, step))
    ensures CanBreak(s)
  {
    var steps :| IsLockGuardedRun(Apply(s, step), steps) && IsRun(Apply(s, step), steps)
                 && !OneActive(Exec(Apply(s, step), steps));
    assert ([step] + steps)[1..] == steps;
    assert IsLockGuardedRun(s, [step] + steps);
  }

  /** An active process whose inode has lost its name does not stop a newcomer. */
  lemma UnnamedActiveBreaks(s: State, q: Pid)
    requires LocksConsistent(s) && s.path.None? && IsActive(s, q)
    ensures CanBreak(s)
  {
    var r := FreshPid(s.procs.Keys);
    var s1 := Apply(s, Open(r));
    var s2 := Apply(s1, Flock(r));
    assert s.next !in s.holder by {
      assert s.next in s.holder ==> Consistent(s, s.holder[s.next]);
    }
    assert IsActive(s2, q) && IsActive(s2, r);
    assert CanBreak(s2) by {
      assert IsLockGuardedRun(s2, []) && Exec(s2, []) == s2;
    }
    BreakLater(s1, Flock(r));
    BreakLater(s, Open(r));
  }

  /** A contender whose inode has lost its name can still win that inode's lock. */
  lemma {:induction false} UnnamedContenderBreaks(s: State, q: Pid)
    requires LocksConsistent(s) && s.path.None? && StageOf(s, q).Opened?
    ensures CanBreak(s)
    decreases |s.holder|
  {
    var i := InodeOf(s, q);
    if i !in s.holder {
      StepKeepsLocks(s, Flock(q));
      UnnamedActiveBreaks(Apply(s, Flock(q)), q);
      BreakLater(s, Flock(q));
    } else {
      var h := s.holder[i];
      if IsActive(s, h) {
        UnnamedActiveBreaks(s, h);
      } else {
        var release := if StageOf(s, h).ProbeLocked? then ProbeClose(h) else Close(h);
        StepKeepsLocks(s, release);
        UnnamedContenderBreaks(Apply(s, release), q);
        BreakLater(s, release);
      }
    }
  }

  /**
   The guard is exact: from a state that was within it so far, a step that takes the name away
   leaves exclusion breakable exactly when it was taken outside the guard.
   */
  lemma LockGuardIsExact(s: State, step: Step)
    requires Exclusive(s) && Enabled(s, step) && DropsName(s, step)
    ensures CanBreak(Apply(s, step)) <==> !LockGuard(s, step)
  {
    var s' := Apply(s, step);
    StepKeepsLocks(s, step);
    if LockGuard(s, step) {
      StepKeepsExclusive(s, step);
      forall steps | IsLockGuardedRun(s', steps) && IsRun(s', steps)
        ensures OneActive(Exec(s', steps))
      {
        GuardedRunKeepsExclusive(s', steps);
        ExclusiveMeansOneActive(Exec(s', steps));
      }
    } else {
      var q :| q != step.p && (StageOf(s, q).Opened? || IsActive(s, q));
      StepFrame(s, step, q);
      if StageOf(s, q).Opened? {
        UnnamedContenderBreaks(s', q);
      } else {
        UnnamedActiveBreaks(s', q);
      }
    }
  }

  // ---------------------------------------------------------------- verify_session

  /** No process is mid-acquire, mid-release or mid-probe. */
  ghost predicate Quiescent(s: State) {
    forall p: Pid :: var stage := StageOf(s, p);
      !(stage.Opened? || stage.Locked? || stage.Truncated? || stage.Dropped? || stage.Unlinked? || stage.ProbeOpened?
        || stage.ProbeLocked?)
  }

  /** What verify_session answers is exactly who the daemon is, provided active daemons exist as processes. */
  lemma VerifyIsExact(s0: State, steps: seq<Step>, alive: set<Pid>, pid: Pid)
    requires Initial(s0) && IsLockGuardedRun(s0, steps) && IsRun(s0, steps)
    requires Quiescent(Exec(s0, steps))
    requires forall p: Pid | IsActive(Exec(s0, steps), p) :: p in alive
    ensures var s := Exec(s0, steps);
      && (Verify(s, alive, pid) == Match <==> IsActive(s, pid))
      && (Verify(s, alive, pid) == Mismatch <==> pid in alive && exists q: Pid :: q != pid && IsActive(s, q))
      && (Verify(s, alive, pid) == NotFound <==> pid !in alive || forall q: Pid :: !IsActive(s, q))
      && Verify(s, alive, pid) != Unavailable
  {
    GuardedRunKeepsExclusive(s0, steps);
    var s := Exec(s0, steps);
    ExclusiveMeansOneActive(s);
    forall q: Pid | IsActive(s, q)
      ensures s.path.Some? && s.path.value in s.holder && s.path.value in s.record
      ensures s.record[s.path.value] == PidLine(q)
    {
      assert OnPath(s, q) && Consistent(s, q);
    }
    if s.path.Some? && s.path.value in s.holder {
      assert IsActive(s, s.holder[s.path.value]);
    }
  }

  /** A truncated lock file is blank, and a process past its unlink is off the path. */
  predicate Tidy(s: State, p: Pid) {
    && (StageOf(s, p).Truncated? ==> InodeOf(s, p) in s.record && s.record[InodeOf(s, p)] == Blank)
    && (StageOf(s, p).Dropped? || StageOf(s, p).Unlinked? ==> s.path != Some(InodeOf(s, p)))
  }

  ghost predicate AllTidy(s: State) {
    LocksConsistent(s) && forall p: Pid :: Tidy(s, p)
  }

  /** A process that a step leaves alone stays tidy: nobody else writes its file or brings its name back. */
  lemma OtherStaysTidy(s: State, s': State, q: Pid)
    requires LocksConsistent(s) && Tidy(s, q) && ProcessOf(s', q) == ProcessOf(s, q)
    requires s'.path == s.path || s'.path.None? || s'.path == Some(s.next)
    requires StageOf(s, q).Truncated? ==>
      var i := InodeOf(s, q); i in s.record && i in s'.record && s'.record[i] == s.record[i]
    ensures Tidy(s', q)
  {
    assert Consistent(s, q);
  }

  lemma OwnStaysTidy(s: State, step: Step)
    requires !step.StopCleanup? && Enabled(s, step) && Consistent(s, step.p) && Tidy(s, step.p)
    ensures Tidy(Apply(s, step), step.p)
  {
  }

  lemma OtherKeepsRecord(s: State, step: Step, q: Pid)
    requires LocksConsistent(s) && Enabled(s, step) && StageOf(s, q).Truncated?
    requires step.StopCleanup? || q != step.p
    ensures var i := InodeOf(s, q);
      i in s.record && i in Apply(s, step).record && Apply(s, step).record[i] == s.record[i]
  {
    assert Consistent(s, q);
    StepKeepsLocks(s, step);
    if Apply(s, step).record[InodeOf(s, q)] != s.record[InodeOf(s, q)] {
      OnlyHolderWrites(s, step, InodeOf(s, q));
    }
  }

  lemma StepKeepsTidy(s: State, step: Step)
    requires AllTidy(s) && Enabled(s, step)
    ensures AllTidy(Apply(s, step))
  {
    StepKeepsLocks(s, step);
    StepNames(s, step);
    forall q: Pid
      ensures Tidy(Apply(s, step), q)
    {
      assert Tidy(s, q) && Consistent(s, q);
      if step.StopCleanup? || q != step.p {
        StepFrame(s, step, q);
        if StageOf(s, q).Truncated? {
          OtherKeepsRecord(s, step, q);
        }
        OtherStaysTidy(s, Apply(s, step), q);
      } else {
        OwnStaysTidy(s, step);
      }
    }
  }

  lemma {:induction false} RunKeepsTidy(s: State, steps: seq<Step>)
    requires AllTidy(s) && IsRun(s, steps)
    ensures AllTidy(Exec(s, steps))
    decreases |steps|
  {
    if steps != [] {
      StepKeepsTidy(s, steps[0]);
      RunKeepsTidy(Apply(s, steps[0]), steps[1..]);
    }
  }

  /** A contender between flock and truncate, or a probe, holds the lock over the record of an earlier session. */
  predicate IsStale(s: State, pid: Pid) {
    && s.path.Some? && s.path.value in s.holder && s.path.value in s.record
    && s.record[s.path.value] == PidLine(pid)
    && (StageOf(s, s.holder[s.path.value]).Locked? || StageOf(s, s.holder[s.path.value]).ProbeLocked?)
  }

  /** An active process on the named inode, with its pid on record. */
  predicate IsOnRecord(s: State, pid: Pid) {
    IsActive(s, pid) && HasRecorded(StageOf(s, pid)) && s.path == Some(InodeOf(s, pid))
  }

  /**
   In every reachable state, with no guard at all: the answer is Match exactly if the process exists
   and either is active on the named inode with its pid on record, or is named by a stale record under
   a lock that somebody else's start or probe holds just now.
   */
  lemma VerifyMatchesExactlyIf(s0: State, steps: seq<Step>, alive: set<Pid>, pid: Pid)
    requires Initial(s0) && IsRun(s0, steps)
    ensures var s := Exec(s0, steps);
      Verify(s, alive, pid) == Match <==> pid in alive && (IsOnRecord(s, pid) || IsStale(s, pid))
  {
    InitialIsExclusive(s0);
    assert forall p: Pid :: StageOf(s0, p).Idle?;
    RunKeepsTidy(s0, steps);
    var s := Exec(s0, steps);
    assert Consistent(s, pid);
    if s.path.Some? && s.path.value in s.holder {
      var h := s.holder[s.path.value];
      assert Tidy(s, h) && Consistent(s, h) && InodeOf(s, h) == s.path.value;
    }
  }

  /** The named lock is held, but no pid is on record. */
  predicate IsUnrecorded(s: State) {
    && s.path.Some? && s.path.value in s.holder
    && var stage := StageOf(s, s.holder[s.path.value]);
       || stage.Truncated?
       || ((stage.Locked? || stage.ProbeLocked?)
           && s.path.value in s.record && !s.record[s.path.value].PidLine?)
  }

  /**
   In every reachable state, with no guard: the answer is Unavailable exactly while a start has emptied
   the lock file and not yet written its pid, or a start or a probe holds it over a file without a pid.
   */
  lemma VerifyIsUnavailableExactlyIf(s0: State, steps: seq<Step>, alive: set<Pid>, pid: Pid)
    requires Initial(s0) && IsRun(s0, steps)
    ensures var s := Exec(s0, steps); Verify(s, alive, pid) == Unavailable <==> pid in alive && IsUnrecorded(s)
  {
    InitialIsExclusive(s0);
    assert forall p: Pid :: StageOf(s0, p).Idle?;
    RunKeepsTidy(s0, steps);
    var s := Exec(s0, steps);
    if s.path.Some? && s.path.value in s.holder {
      var h := s.holder[s.path.value];
      assert Tidy(s, h) && Consistent(s, h) && InodeOf(s, h) == s.path.value;
    }
  }

  /** A start that has just won the lock makes a dead session's recorded pid look like the daemon's. */
  lemma StaleRecordMatches() returns (s0: State, steps: seq<Step>)
    ensures Initial(s0) && IsLockGuardedRun(s0, steps) && IsRun(s0, steps)
    ensures var s := Exec(s0, steps); !IsActive(s, 0) && IsActive(s, 1) && Verify(s, {0, 1}, 0) == Match
  {
    s0 := State(Some(0), 1, map[], map[0 := PidLine(0)], Absent, None, map[]);
    var s1 := Apply(s0, Open(1));
    var s2 := Apply(s1, Flock(1));
    assert IsLockGuardedRun(s2, []) && Exec(s2, []) == s2;
    assert [Open(1), Flock(1)][1..] == [Flock(1)] && [Flock(1)][1..] == [];
    assert IsLockGuardedRun(s1, [Flock(1)]) && Exec(s1, [Flock(1)]) == s2;
    steps := [Open(1), Flock(1)];
  }

  // ---------------------------------------------------------------- a start with nobody else around

  /** Only `p` could act: every other process is gone, or past its release. */
  ghost predicate Alone(s: State, p: Pid) {
    StageOf(s, p).Idle? && forall q: Pid :: !HasDescriptor(StageOf(s, q))
  }

  function AcquireSteps(p: Pid): seq<Step> {
    [Open(p), Flock(p), Truncate(p), WritePid(p)]
  }

  function StartSteps(p: Pid): seq<Step> {
    AcquireSteps(p) + [Reclaim(p), Mkdir(p), WriteIdentity(p)]
  }

  function RejectedSteps(p: Pid): seq<Step> {
    AcquireSteps(p) + [Reclaim(p), Unlink(p), Close(p)]
  }

  lemma {:induction false} RunConcat(s: State, first: seq<Step>, second: seq<Step>)
    requires IsRun(s, first) && IsRun(Exec(s, first), second)
    ensures IsRun(s, first + second) && Exec(s, first + second) == Exec(Exec(s, first), second)
    decreases |first|
  {
    if first == [] {
      assert first + second == second;
    } else {
      RunConcat(Apply(s, first[0]), first[1..], second);
      assert (first + second)[1..] == first[1..] + second;
    }
  }

  lemma RunOne(s: State, step: Step)
    requires Enabled(s, step)
    ensures IsRun(s, [step]) && Exec(s, [step]) == Apply(s, step)
  {
  }

  lemma RunSnoc(s: State, steps: seq<Step>, step: Step)
    requires IsRun(s, steps) && Enabled(Exec(s, steps), step)
    ensures IsRun(s, steps + [step]) && Exec(s, steps + [step]) == Apply(Exec(s, steps), step)
  {
    RunOne(Exec(s, steps), step);
    RunConcat(s, steps, [step]);
  }

  lemma RunThree(s: State, a: Step, b: Step, c: Step)
    requires Enabled(s, a) && Enabled(Apply(s, a), b) && Enabled(Apply(Apply(s, a), b), c)
    ensures IsRun(s, [a, b, c]) && Exec(s, [a, b, c]) == Apply(Apply(Apply(s, a), b), c)
  {
    RunOne(s, a);
    RunSnoc(s, [a], b);
    RunSnoc(s, [a] + [b], c);
    assert [a] + [b] + [c] == [a, b, c];
  }

  lemma RunFour(s: State, a: Step, b: Step, c: Step, d: Step)
    requires Enabled(s, a) && Enabled(Apply(s, a), b) && Enabled(Apply(Apply(s, a), b), c)
    requires Enabled(Apply(Apply(Apply(s, a), b), c), d)
    ensures IsRun(s, [a, b, c, d]) && Exec(s, [a, b, c, d]) == Apply(Apply(Apply(Apply(s, a), b), c), d)
  {
    RunThree(s, a, b, c);
    RunSnoc(s, [a, b, c], d);
    assert [a, b, c] + [d] == [a, b, c, d];
  }

  /** The state in which a lone acquire leaves the session. */
  function Acquired(s: State, p: Pid): State {
    var i := if s.path.Some? then s.path.value else s.next;
    s.(path := Some(i),
       next := if s.path.Some? then s.next else s.next + 1,
       holder := s.holder[i := p],
       record := s.record[i := PidLine(p)],
       procs := s.procs[p := Process(Recorded, i)])
  }

  /** The state after p alone has opened and locked the file that the path names, or a new one. */
  function LockedBy(s: State, p: Pid): State {
    var i := if s.path.Some? then s.path.value else s.next;
    s.(path := Some(i),
       next := if s.path.Some? then s.next else s.next + 1,
       holder := s.holder[i := p],
       record := if s.path.Some? then s.record else s.record[i := Blank],
       procs := s.procs[p := Process(Locked, i)])
  }

  lemma OpenFlockSteps(s: State, p: Pid)
    requires StageOf(s, p).Idle? && s.holder == map[]
    ensures Enabled(Apply(s, Open(p)), Flock(p)) && Apply(Apply(s, Open(p)), Flock(p)) == LockedBy(s, p)
  {
    var i := if s.path.Some? then s.path.value else s.next;
    var s1 := Apply(s, Open(p));
    assert InodeOf(s1, p) == i && s1.holder == s.holder;
    assert s1.procs[p := Process(Locked, i)] == s.procs[p := Process(Locked, i)];
  }

  lemma LoneAcquireSteps(s: State, p: Pid)
    requires StageOf(s, p).Idle? && s.holder == map[]
    ensures var s2 := Apply(Apply(s, Open(p)), Flock(p));
      && Enabled(s2, Truncate(p))
      && Enabled(Apply(s2, Truncate(p)), WritePid(p))
      && Apply(Apply(s2, Truncate(p)), WritePid(p)) == Acquired(s, p)
  {
    OpenFlockSteps(s, p);
    var s2 := LockedBy(s, p);
    WritePidSteps(s2, p);
    var i := InodeOf(s2, p);
    assert s2.procs[p := Process(Recorded, i)] == s.procs[p := Process(Recorded, i)];
    assert s2.record[i := PidLine(p)] == s.record[i := PidLine(p)];
  }

  lemma WritePidSteps(s: State, p: Pid)
    requires StageOf(s, p).Locked?
    ensures Enabled(Apply(s, Truncate(p)), WritePid(p))
    ensures Apply(Apply(s, Truncate(p)), WritePid(p))
            == s.(record := s.record[InodeOf(s, p) := PidLine(p)],
                  procs := s.procs[p := Process(Recorded, InodeOf(s, p))])
  {
  }

  lemma LoneAcquire(s: State, p: Pid)
    requires LocksConsistent(s) && Alone(s, p)
    ensures s.holder == map[]
    ensures IsRun(s, AcquireSteps(p)) && Exec(s, AcquireSteps(p)) == Acquired(s, p)
  {
    assert forall i | i in s.holder :: HasDescriptor(StageOf(s, s.holder[i]));
    assert s.holder == map[];
    LoneAcquireSteps(s, p);
    OpenFlockSteps(s, p);
    RunFour(s, Open(p), Flock(p), Truncate(p), WritePid(p));
  }

  lemma LoneServe(s: State, p: Pid)
    requires StageOf(s, p).Recorded? && (s.slot.Absent? || s.slot.Directory?)
    ensures IsRun(s, [Reclaim(p), Mkdir(p), WriteIdentity(p)])
    ensures Exec(s, [Reclaim(p), Mkdir(p), WriteIdentity(p)])
            == s.(slot := Directory(map[DAEMON_PID := IdentityFile(p)]),
                  procs := s.procs[p := Process(Serving, InodeOf(s, p))])
  {
    RunThree(s, Reclaim(p), Mkdir(p), WriteIdentity(p));
  }

  /**
   After any crashes, a lone start wins the lock and serves from a fresh tunnel-data that holds
   nothing but its own daemon.pid, whatever the dead sessions left there.
   */
  lemma LoneStart(s: State, p: Pid)
    requires LocksConsistent(s) && Alone(s, p)
    requires s.slot.Absent? || s.slot.Directory?
    ensures IsRun(s, StartSteps(p))
    ensures var s' := Exec(s, StartSteps(p));
      && StageOf(s', p).Serving?
      && s'.path == Some(InodeOf(s', p))
      && s'.holder == map[InodeOf(s', p) := p]
      && s'.slot == Directory(map[DAEMON_PID := IdentityFile(p)])
      && (forall alive: set<Pid> | p in alive :: Verify(s', alive, p) == Match)
      && (forall q: Pid | q != p :: ProcessOf(s', q) == ProcessOf(s, q))
      && s'.generatedBy == s.generatedBy
  {
    LoneAcquire(s, p);
    LoneServe(Acquired(s, p), p);
    RunConcat(s, AcquireSteps(p), [Reclaim(p), Mkdir(p), WriteIdentity(p)]);
  }

  /** An unsafe tunnel-data is refused: the lock is given back and the slot is left exactly as it was. */
  lemma LoneStartRejectsUnsafeSlot(s: State, p: Pid)
    requires LocksConsistent(s) && Alone(s, p)
    requires s.slot.Symlink? || s.slot.NotADirectory? || s.slot.ForeignOwned?
    ensures IsRun(s, RejectedSteps(p))
    ensures var s' := Exec(s, RejectedSteps(p));
      StageOf(s', p).Finished? && s'.holder == map[] && s'.path.None? && s'.slot == s.slot
  {
    LoneAcquire(s, p);
    RunThree(Acquired(s, p), Reclaim(p), Unlink(p), Close(p));
    RunConcat(s, AcquireSteps(p), [Reclaim(p), Unlink(p), Close(p)]);
  }

  /** Process p serves alone in a directory that was empty before. */
  lemma FirstStart(p: Pid) returns (s0: State, steps: seq<Step>, s: State)
    ensures Initial(s0) && IsRun(s0, steps) && Exec(s0, steps) == s
    ensures LocksConsistent(s) && StageOf(s, p).Serving? && s.slot.Directory? && s.generatedBy.None?
    ensures s.path == Some(InodeOf(s, p))
    ensures forall r: Pid | r != p :: StageOf(s, r).Idle?
  {
    s0 := State(None, 0, map[], map[], Absent, None, map[]);
    InitialIsExclusive(s0);
    LoneStart(s0, p);
    steps := StartSteps(p);
    RunKeepsLocks(s0, steps);
    s := Exec(s0, steps);
    assert forall r: Pid | r != p :: ProcessOf(s, r) == ProcessOf(s0, r);
  }

  /** Without the guard two daemons really can be active at once, starting from an empty directory. */
  lemma MutualExclusionNeedsItsGuard() returns (s0: State, steps: seq<Step>)
    ensures Initial(s0) && IsRun(s0, steps) && !OneActive(Exec(s0, steps))
  {
    var first, s1;
    s0, first, s1 := FirstStart(0);
    var s2 := Apply(s1, Open(1));
    var s3 := Apply(s2, Unlink(0));
    RunSnoc(s0, first, Open(1));
    RunSnoc(s0, first + [Open(1)], Unlink(0));
    StepKeepsLocks(s1, Open(1));
    StepKeepsLocks(s2, Unlink(0));
    UnnamedContenderBreaks(s3, 1);
    var more :| IsLockGuardedRun(s3, more) && IsRun(s3, more) && !OneActive(Exec(s3, more));
    RunConcat(s0, first + [Open(1)] + [Unlink(0)], more);
    steps := first + [Open(1)] + [Unlink(0)] + more;
  }

  // ---------------------------------------------------------------- what tunnel-data/ holds

  /**
   tunnel-data is removed, by a cleanup or a stop, only while no daemon has one of its own, and no
   daemon materializes something else over its daemon.pid.
   */
  ghost predicate DataGuard(s: State, step: Step) {
    && (step.RemoveTree? || step.StopCleanup? ==> forall q: Pid :: !StageOf(s, q).Made? && !StageOf(s, q).Serving?)
    && (step.Materialize? && step.name == DAEMON_PID ==> step.content == IdentityFile(step.p).content)
  }

  ghost predicate IsGuardedRun(s: State, steps: seq<Step>)
    decreases |steps|
  {
    steps == []
    || (&& Enabled(s, steps[0]) && LockGuard(s, steps[0]) && DataGuard(s, steps[0])
        && IsGuardedRun(Apply(s, steps[0]), steps[1..]))
  }

  /** Process p finds in tunnel-data what it put there and nothing of anybody else. */
  predicate OwnsData(s: State, p: Pid) {
    match StageOf(s, p)
    case Wiped => s.slot.Absent?
    case Made => s.slot == Directory(map[])
    case Serving =>
      && s.slot.Directory?
      && DAEMON_PID in s.slot.files && s.slot.files[DAEMON_PID] == IdentityFile(p)
      && forall f | f in s.slot.files :: s.slot.files[f].writer == p
    case _ => true
  }

  ghost predicate DataOwned(s: State) {
    Exclusive(s) && forall p: Pid :: OwnsData(s, p)
  }

  lemma StepKeepsData(s: State, step: Step)
    requires DataOwned(s) && Enabled(s, step) && LockGuard(s, step) && DataGuard(s, step)
    ensures DataOwned(Apply(s, step))
  {
    StepKeepsExclusive(s, step);
    ExclusiveMeansOneActive(s);
    forall q: Pid
      ensures OwnsData(Apply(s, step), q)
    {
      StepFrame(s, step, q);
      assert OwnsData(s, q);
      assert step.StopCleanup? || OwnsData(s, step.p);
      assert step.StopCleanup? || q == step.p || !IsActive(s, q) || !IsActive(s, step.p);
    }
  }

  lemma {:induction false} GuardedRunKeepsData(s: State, steps: seq<Step>)
    requires DataOwned(s) && IsGuardedRun(s, steps)
    ensures IsRun(s, steps) && DataOwned(Exec(s, steps))
    decreases |steps|
  {
    if steps != [] {
      StepKeepsData(s, steps[0]);
      GuardedRunKeepsData(Apply(s, steps[0]), steps[1..]);
    }
  }

  /**
   In every run within both guards, a serving daemon's tunnel-data holds only files that it wrote
   itself, and what read_identity finds there is its pid.
   */
  lemma DataIntegrity(s0: State, steps: seq<Step>, p: Pid)
    requires Initial(s0) && IsGuardedRun(s0, steps)
    ensures IsRun(s0, steps)
    ensures var s := Exec(s0, steps);
      StageOf(s, p).Serving? ==>
        && s.slot.Directory? && (forall foreign :: ReadIdentity(s, foreign) == Some(p))
        && (forall f | f in s.slot.files :: s.slot.files[f].writer == p)
        && (forall q: Pid | IsActive(s, q) :: q == p)
  {
    InitialIsExclusive(s0);
    assert forall q: Pid :: StageOf(s0, q).Idle?;
    GuardedRunKeepsData(s0, steps);
    ExclusiveMeansOneActive(Exec(s0, steps));
    assert OwnsData(Exec(s0, steps), p);
    assert StageOf(Exec(s0, steps), p).Serving? ==> IsActive(Exec(s0, steps), p);
    IdentityReadsBack(p);
  }

  /** The data guard is exact: a step leaves daemons their data if and only if it respects the guard. */
  lemma DataGuardIsExact(s: State, step: Step)
    requires DataOwned(s) && Enabled(s, step) && LockGuard(s, step)
    ensures DataOwned(Apply(s, step)) <==> DataGuard(s, step)
  {
    if DataGuard(s, step) {
      StepKeepsData(s, step);
    } else if step.Materialize? {
      assert !OwnsData(Apply(s, step), step.p);
    } else {
      var q :| StageOf(s, q).Made? || StageOf(s, q).Serving?;
      StepFrame(s, step, q);
      assert OwnsData(s, q);
      assert !OwnsData(Apply(s, step), q);
    }
  }

  /** A newcomer starts between a cleanup's release and its removal of the tree. */
  lemma ReleaseThenStart(s: State, p: Pid, q: Pid) returns (steps: seq<Step>, s': State)
    requires LocksConsistent(s) && StageOf(s, p).Serving? && s.slot.Directory? && s.generatedBy.None?
    requires forall r: Pid | r != p :: StageOf(s, r).Idle?
    requires q != p
    ensures IsRun(s, steps) && Exec(s, steps) == s'
    ensures StageOf(s', p).Closed? && StageOf(s', q).Serving? && s'.slot.Directory? && s'.generatedBy.None?
  {
    var s1 := Apply(s, Unlink(p));
    var s2 := Apply(s1, Close(p));
    StepKeepsLocks(s, Unlink(p));
    StepKeepsLocks(s1, Close(p));
    RunOne(s, Unlink(p));
    RunSnoc(s, [Unlink(p)], Close(p));
    assert forall r: Pid :: StageOf(s2, r) == if r == p then Closed else StageOf(s, r);
    LoneStart(s2, q);
    RunConcat(s, [Unlink(p)] + [Close(p)], StartSteps(q));
    steps := [Unlink(p)] + [Close(p)] + StartSteps(q);
    s' := Exec(s, steps);
    assert ProcessOf(s', p) == ProcessOf(s2, p);
  }

  /** A cleanup that releases the lock first can remove the tunnel-data of the daemon that follows it. */
  lemma DataIntegrityNeedsItsGuard() returns (s0: State, steps: seq<Step>, q: Pid)
    ensures Initial(s0) && IsRun(s0, steps)
    ensures StageOf(Exec(s0, steps), q).Serving? && Exec(s0, steps).slot.Absent?
  {
    var first, s1;
    s0, first, s1 := FirstStart(0);
    var more, s2 := ReleaseThenStart(s1, 0, 1);
    RunConcat(s0, first, more);
    RunSnoc(s0, first + more, RemoveTree(0));
    steps := first + more + [RemoveTree(0)];
    q := 1;
  }

  /** A tunnel-data that is no directory of this user. */
  predicate IsUnsafe(slot: Slot) {
    slot.Symlink? || slot.NotADirectory? || slot.ForeignOwned?
  }

  /** No process touches such a slot, in any run of any processes, unless the session directory was generated. */
  lemma {:induction false} UnsafeSlotStays(s: State, steps: seq<Step>)
    requires IsRun(s, steps) && IsUnsafe(s.slot) && s.generatedBy.None?
    ensures Exec(s, steps).slot == s.slot
    decreases |steps|
  {
    if steps != [] {
      UnsafeSlotStays(Apply(s, steps[0]), steps[1..]);
    }
  }

  /** A stop that finds another pid than the daemon's still removes the data of the daemon that serves. */
  lemma StopRemovesServingData() returns (s0: State, steps: seq<Step>)
    ensures Initial(s0) && IsRun(s0, steps) && IsRun(s0, steps + [StopCleanup])
    ensures StageOf(Exec(s0, steps), 1).Serving? && Verify(Exec(s0, steps), {0, 1}, 0) == Mismatch
    ensures var s := Exec(s0, steps + [StopCleanup]); StageOf(s, 1).Serving? && s.slot.Absent?
  {
    var s;
    s0, steps, s := FirstStart(1);
    assert Consistent(s, 1);
    RunSnoc(s0, steps, StopCleanup);
  }
}
