/**
 cli.py: what `stop` and the teardown of `run` do to a session: they read the pid from tunnel-data/,
 stop that process, and remove tunnel-data/. Which process that is follows from the session protocol.
 */
module StopCommand {
  import opened Wrappers
  import opened SessionProtocol
  import opened SessionSafety
  import opened SessionDirectory
  import StopEscalation

  /** The daemon goes on as before: it serves, holds its lock, and its pid is on record. */
  ghost predicate IsLeftBehind(s: State, daemon: Pid) {
    && StageOf(s, daemon).Serving?
    && InodeOf(s, daemon) in s.holder && s.holder[InodeOf(s, daemon)] == daemon
    && InodeOf(s, daemon) in s.record && s.record[InodeOf(s, daemon)] == PidLine(daemon)
  }

  ghost predicate IsGone(s: State, daemon: Pid) {
    StageOf(s, daemon).Crashed? || StageOf(s, daemon).Finished?
  }

  ghost predicate SaidStopped(stop: StopEscalation.Stop)
    reads stop
  {
    && |stop.log| > 0
    && var said := stop.log[|stop.log| - 1];
       said.Said? && (said.verdict.Stopped? || said.verdict.Killed?)
  }

  /** By what was found, the process with the stop's pid does not exist, or SIGKILL has reached it. */
  predicate FoundGone(log: seq<StopEscalation.Event>) {
    exists i :: 0 <= i < |log| && log[i].Sent?
                && (log[i].delivery.NoSuchProcess? || (log[i].signal.Kill? && log[i].delivery.Delivered?))
  }

  lemma SaidStoppedWasFound(stop: StopEscalation.Stop)
    requires SaidStopped(stop)
    requires StopEscalation.Concludes(stop.log, stop.Patience() as real, stop.force)
    ensures FoundGone(stop.log)
  {
    var k := |stop.log| - 2;
    assert stop.log[..|stop.log| - 1][k] == stop.log[k];
  }

  /** A session directory with the daemon that was started in it. */
  class Session {
    const daemon: Pid
    var state: State

    /** The steps that the command itself has taken in the session directory. */
    ghost var own: seq<Step>

    ghost predicate Valid()
      reads this
    {
      RightAbout(state, daemon)
    }

    constructor (daemon: Pid, state: State)
      requires RightAbout(state, daemon)
      ensures Valid() && this.daemon == daemon && this.state == state && own == []
    {
      this.daemon, this.state, own := daemon, state, [];
    }

    /** Any steps of other processes than the daemon; see OthersLeaveProcessAlone. */
    method Others()
      requires Valid()
      modifies this
      ensures Valid() && ProcessOf(state, daemon) == ProcessOf(old(state), daemon) && own == old(own)
    {
    }

    /**
     What the signals did. They concern the process with the stop's pid and no other one; if kill said
     that it does not exist, or SIGKILL has reached it, it takes no more steps.
     */
    method Settle(stop: StopEscalation.Stop, gone: bool)
      requires Valid() && (gone ==> FoundGone(stop.log))
      modifies this
      ensures Valid() && own == old(own)
      ensures gone && stop.pid == daemon ==> IsGone(state, daemon)
      ensures stop.pid != daemon || (!gone && StopEscalation.Signals(stop.log) == []) ==>
        ProcessOf(state, daemon) == ProcessOf(old(state), daemon)
    {
      if gone && stop.pid == daemon && Enabled(state, Crash(daemon)) {
        ClosingKeepsRight(state, Crash(daemon));
        state := Apply(state, Crash(daemon));
      }
    }

    /** SessionDir.cleanup_path */
    method RemoveData()
      requires Valid()
      modifies this
      ensures Valid() && own == old(own) + [StopCleanup] && state == Apply(old(state), StopCleanup)
    {
      if state.slot.Directory? {
        state := state.(slot := Absent);
      }
      own := own + [StopCleanup];
    }

    /** _kill_with_identity by force, and what it does to the daemon. */
    method KillProcess(pid: Pid, grace: int, now: real) returns (refused: bool, stop: StopEscalation.Stop)
      requires Valid()
      modifies this
      ensures Valid() && own == old(own) && fresh(stop) && stop.force && stop.pid == pid && stop.grace == grace
      ensures StopEscalation.IsWellBehaved(stop.log, stop.Patience() as real)
      ensures !refused ==>
        && StopEscalation.Concludes(stop.log, stop.Patience() as real, true)
        && (SaidStopped(stop) && pid == daemon ==> IsGone(state, daemon))
      ensures pid != daemon || (StopEscalation.Signals(stop.log) == [] && !SaidStopped(stop)) ==>
        ProcessOf(state, daemon) == ProcessOf(old(state), daemon)
    {
      stop := new StopEscalation.Stop(pid, grace, true, now);
      var stopped := stop.KillWithIdentity();
      if stopped.Ok? && stopped.value {
        SaidStoppedWasFound(stop);
      }
      Settle(stop, stopped.Ok? && stopped.value);
      refused := stopped.Err?;
    }

    /** tunnel-data/ goes after whatever others have done meanwhile. */
    method OthersThenRemove()
      requires Valid()
      modifies this
      ensures Valid() && own == old(own) + [StopCleanup] && !state.slot.Directory?
      ensures ProcessOf(state, daemon) == ProcessOf(old(state), daemon)
    {
      Others();
      RemoveData();
    }

    /** Stops by force the process with this pid and removes tunnel-data/, unless a signal was refused. */
    method KillAndRemove(pid: Pid, grace: int, now: real) returns (refused: bool, stop: StopEscalation.Stop)
      requires Valid()
      modifies this
      ensures Valid() && fresh(stop) && stop.force && stop.pid == pid && stop.grace == grace
      ensures if refused then own == old(own) else own == old(own) + [StopCleanup] && !state.slot.Directory?
      ensures StopEscalation.IsWellBehaved(stop.log, stop.Patience() as real)
      ensures !refused ==>
        && StopEscalation.Concludes(stop.log, stop.Patience() as real, true)
        && (SaidStopped(stop) && pid == daemon ==> IsGone(state, daemon))
      ensures pid != daemon || (StopEscalation.Signals(stop.log) == [] && !SaidStopped(stop)) ==>
        ProcessOf(state, daemon) == ProcessOf(old(state), daemon)
    {
      refused, stop := KillProcess(pid, grace, now);
      if !refused {
        OthersThenRemove();
      }
    }

    /** `stop_command`: without a pid in tunnel-data/ it does nothing. `foreign` is what stands behind a symlink. */
    method StopDaemon(foreign: Option<string>, grace: int, now: real)
      returns (refused: bool, stop: StopEscalation.Stop?)
      requires Valid()
      modifies this
      ensures Valid() && (stop == null <==> ReadIdentity(old(state), foreign).None?)
      ensures stop == null ==> !refused && own == old(own) && state == old(state)
      ensures stop != null ==>
        && fresh(stop) && stop.force && stop.grace == grace && ReadIdentity(old(state), foreign) == Some(stop.pid)
        && (if refused then own == old(own) else own == old(own) + [StopCleanup] && !state.slot.Directory?)
        && (!refused && SaidStopped(stop) && stop.pid == daemon ==> IsGone(state, daemon))
        && (stop.pid != daemon ==> ProcessOf(state, daemon) == ProcessOf(old(state), daemon))
        && StopEscalation.IsWellBehaved(stop.log, stop.Patience() as real)
        && (!refused ==> StopEscalation.Concludes(stop.log, stop.Patience() as real, true))
    {
      refused, stop := false, null;
      var recorded := ReadIdentity(state, foreign);
      if recorded.Some? {
        refused, stop := KillAndRemove(recorded.value, grace, now);
      }
    }

    /** `_teardown_run`: the same, but tunnel-data/ is removed also when there is no pid in it. */
    method TearDown(foreign: Option<string>, grace: int, now: real)
      returns (refused: bool, stop: StopEscalation.Stop?)
      requires Valid()
      modifies this
      ensures Valid() && (stop == null <==> ReadIdentity(old(state), foreign).None?)
      ensures stop == null ==> !refused && ProcessOf(state, daemon) == ProcessOf(old(state), daemon)
      ensures if refused then own == old(own) else own == old(own) + [StopCleanup] && !state.slot.Directory?
      ensures stop != null ==>
        && fresh(stop) && stop.force && stop.grace == grace && ReadIdentity(old(state), foreign) == Some(stop.pid)
        && (!refused && SaidStopped(stop) && stop.pid == daemon ==> IsGone(state, daemon))
        && (stop.pid != daemon ==> ProcessOf(state, daemon) == ProcessOf(old(state), daemon))
        && StopEscalation.IsWellBehaved(stop.log, stop.Patience() as real)
        && (!refused ==> StopEscalation.Concludes(stop.log, stop.Patience() as real, true))
    {
      refused, stop := false, null;
      var recorded := ReadIdentity(state, foreign);
      if recorded.Some? {
        refused, stop := KillAndRemove(recorded.value, grace, now);
      } else {
        RemoveData();
      }
    }
  }

  // ---------------------------------------------------------------- which process gets the signals

  /**
   In every run within the guards, while a daemon serves: the pid in tunnel-data/ is its own, and a
   check matches for it and for no other process.
   */
  lemma ServingDaemonIsTheTarget(s0: State, steps: seq<Step>, alive: set<Pid>, daemon: Pid)
    requires Initial(s0) && IsGuardedRun(s0, steps) && IsRun(s0, steps)
    requires StageOf(Exec(s0, steps), daemon).Serving? && daemon in alive
    ensures forall foreign :: ReadIdentity(Exec(s0, steps), foreign) == Some(daemon)
    ensures forall pid: Pid :: Verify(Exec(s0, steps), alive, pid) == Match <==> pid == daemon
  {
    var s := Exec(s0, steps);
    DataIntegrity(s0, steps, daemon);
    RunKeepsGuardedOwner(s0, steps, daemon);
  }

  /** A serving daemon holds the named lock, with its pid on record. */
  lemma RunKeepsGuardedOwner(s0: State, steps: seq<Step>, daemon: Pid)
    requires Initial(s0) && IsGuardedRun(s0, steps) && IsRun(s0, steps) && StageOf(Exec(s0, steps), daemon).Serving?
    ensures var s := Exec(s0, steps);
      && s.path == Some(InodeOf(s, daemon)) && s.path.value in s.holder
      && s.path.value in s.record && s.record[s.path.value] == PidLine(daemon)
  {
    InitialIsExclusive(s0);
    assert forall q: Pid :: StageOf(s0, q).Idle?;
    GuardedRunKeepsData(s0, steps);
    var s := Exec(s0, steps);
    assert OnPath(s, daemon) && Consistent(s, daemon);
  }

  /** What the session was at each event of a log, at the end of some run, and which processes existed. */
  datatype Sight = Sight(steps: seq<Step>, alive: set<Pid>)

  /** Every check of the log is verify_session's answer about the session as it was then. */
  ghost predicate IsSeen(s0: State, log: seq<StopEscalation.Event>, pid: Pid, sights: seq<Sight>) {
    && |sights| == |log|
    && (forall i | 0 <= i < |log| :: IsRun(s0, sights[i].steps))
    && (forall i | 0 <= i < |log| && log[i].Checked? ::
          log[i].check == Verify(Exec(s0, sights[i].steps), sights[i].alive, pid))
  }

  /**
   With no guard at all: a process gets a signal only if, at the check just before, it was active on
   the named inode with its pid on record, or a stale record named it.
   */
  lemma SignalsAreDeserved(s0: State, log: seq<StopEscalation.Event>, pid: Pid, sights: seq<Sight>, i: nat)
    requires Initial(s0) && IsSeen(s0, log, pid, sights) && StopEscalation.EverySignalIsChecked(log)
    requires i < |log| && StopEscalation.IsSignal(log[i])
    ensures i > 0 && pid in sights[i - 1].alive
    ensures var s := Exec(s0, sights[i - 1].steps); IsOnRecord(s, pid) || IsStale(s, pid)
  {
    assert log[i - 1].Checked? && log[i - 1].check.Match?;
    VerifyMatchesExactlyIf(s0, sights[i - 1].steps, sights[i - 1].alive, pid);
  }

  /** And while a daemon serves through all checks, within the guards, only it can get one. */
  lemma OnlyTheDaemonIsSignalled(
      s0: State, log: seq<StopEscalation.Event>, pid: Pid, sights: seq<Sight>, daemon: Pid, i: nat)
    requires Initial(s0) && IsSeen(s0, log, pid, sights) && StopEscalation.EverySignalIsChecked(log)
    requires forall k | 0 <= k < |log| && log[k].Checked? ::
      && IsGuardedRun(s0, sights[k].steps) && daemon in sights[k].alive
      && StageOf(Exec(s0, sights[k].steps), daemon).Serving?
    requires i < |log| && StopEscalation.IsSignal(log[i])
    ensures pid == daemon
  {
    assert log[i - 1].Checked? && log[i - 1].check.Match?;
    ServingDaemonIsTheTarget(s0, sights[i - 1].steps, sights[i - 1].alive, daemon);
  }
}
