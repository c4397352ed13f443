/**
 identity.py and session.py as one process executes them: system call after system call on the
 session directory, with any steps of any other processes before and after each call. Every call
 is one step of the protocol, every method states which steps it takes in which order, and what it
 promises besides holds whatever the other processes do meanwhile.
 */
module SessionDirectory {
  import opened Wrappers
  import opened SessionProtocol
  import opened SessionSafety

  datatype SessionError =
    | NotAbsolute
    | SlotIsSymlink
    | SlotIsNotDirectory
    | SlotIsForeign
    | UnsafeName
    | IoError

  datatype CreateError = SessionActive | Invalid(error: SessionError)

  function CreateSteps(p: Pid): seq<Step> {
    AcquireSteps(p) + [Reclaim(p), Mkdir(p)]
  }

  function ReleaseSteps(p: Pid): seq<Step> {
    [Unlink(p), Close(p)]
  }

  /** Which slots are refused, and how. */
  function Refusal(slot: Slot): Option<SessionError> {
    match slot
    case Symlink => Some(SlotIsSymlink)
    case NotADirectory => Some(SlotIsNotDirectory)
    case ForeignOwned => Some(SlotIsForeign)
    case _ => None
  }

  /** A slot that was refused, an rmtree or a mkdir that raised, or a mkdir that found an entry. */
  predicate IsFailedPreparation(steps: seq<Step>, p: Pid) {
    || steps == [Reclaim(p)]
    || (|steps| == 1 && steps[0].Fail? && steps[0].p == p)
    || steps == [Reclaim(p), Mkdir(p)]
    || steps == [Reclaim(p), Fail(p, {})]
  }

  predicate IsAbsolute(path: string) {
    |path| > 0 && path[0] == '/'
  }

  predicate IsSafeName(name: string) {
    '/' !in name && '\\' !in name && name != "." && name != ".." && name != ""
  }

  /** The part of the protocol's invariant that concerns one process. */
  ghost predicate RightAbout(s: State, p: Pid) {
    && (s.path.Some? ==> s.path.value < s.next && s.path.value in s.record)
    && (forall i | i in s.holder && s.holder[i] == p :: HoldsFlock(StageOf(s, p)) && InodeOf(s, p) == i)
    && Consistent(s, p)
  }

  /** This is what a process may rely on while others run: they never touch its stage, lock or record. */
  lemma {:induction false} OthersLeaveProcessAlone(s: State, steps: seq<Step>, p: Pid)
    requires LocksConsistent(s) && IsRun(s, steps)
    requires forall step | step in steps :: step.StopCleanup? || step.p != p
    ensures ProcessOf(Exec(s, steps), p) == ProcessOf(s, p) && RightAbout(Exec(s, steps), p)
    decreases |steps|
  {
    if steps == [] {
      assert Consistent(s, p);
    } else {
      assert steps[0] in steps;
      StepFrame(s, steps[0], p);
      StepKeepsLocks(s, steps[0]);
      OthersLeaveProcessAlone(Apply(s, steps[0]), steps[1..], p);
    }
  }

  lemma OpeningKeepsRight(s: State, step: Step)
    requires (step.Open? || step.ProbeOpen?) && Enabled(s, step) && RightAbout(s, step.p)
    ensures RightAbout(Apply(s, step), step.p)
  {
  }

  lemma LockingKeepsRight(s: State, step: Step)
    requires (step.Flock? || step.ProbeFlock?) && Enabled(s, step) && RightAbout(s, step.p)
    ensures RightAbout(Apply(s, step), step.p)
  {
  }

  lemma RecordingKeepsRight(s: State, step: Step)
    requires (step.Truncate? || step.WritePid?) && Enabled(s, step) && RightAbout(s, step.p)
    ensures RightAbout(Apply(s, step), step.p)
  {
  }

  lemma ClosingKeepsRight(s: State, step: Step)
    requires (step.Close? || step.ProbeClose? || step.Crash?) && Enabled(s, step) && RightAbout(s, step.p)
    ensures RightAbout(Apply(s, step), step.p)
  {
  }

  /** A process's own step keeps what concerns it right. */
  lemma StepKeepsRight(s: State, step: Step)
    requires Enabled(s, step) && !step.StopCleanup? && RightAbout(s, step.p)
    ensures RightAbout(Apply(s, step), step.p)
  {
    match step
    case Open(_) => OpeningKeepsRight(s, step);
    case ProbeOpen(_) => OpeningKeepsRight(s, step);
    case Flock(_) => LockingKeepsRight(s, step);
    case ProbeFlock(_) => LockingKeepsRight(s, step);
    case Truncate(_) => RecordingKeepsRight(s, step);
    case WritePid(_) => RecordingKeepsRight(s, step);
    case Close(_) => ClosingKeepsRight(s, step);
    case ProbeClose(_) => ClosingKeepsRight(s, step);
    case Crash(_) => ClosingKeepsRight(s, step);
    case _ =>
  }

  /** The states that a verify_session looked at: is there a file, its open, its flock, its read. */
  datatype Looks = Looks(file: State, opening: State, trying: State, reading: State)

  /** What the recorded pid says, when the lock was found taken. */
  function ReadRecord(s: State, pid: Pid): Check {
    if s.path.None? || s.path.value !in s.record || !s.record[s.path.value].PidLine? then Unavailable
    else if s.record[s.path.value].pid != pid then Mismatch
    else Match
  }

  function LockAnswer(looks: Looks, pid: Pid): Check {
    if looks.opening.path.None? then Unavailable
    else if looks.opening.path.value !in looks.trying.holder then NotFound
    else ReadRecord(looks.reading, pid)
  }

  function AnswerOf(looks: Looks, alive: set<Pid>, pid: Pid): Check {
    if pid !in alive || looks.file.path.None? then NotFound else LockAnswer(looks, pid)
  }

  function LockSteps(looks: Looks, me: Pid): seq<Step> {
    if looks.opening.path.None? then []
    else if looks.opening.path.value !in looks.trying.holder then [ProbeOpen(me), ProbeFlock(me), ProbeClose(me)]
    else [ProbeOpen(me), ProbeFlock(me)]
  }

  function ProbeSteps(looks: Looks, alive: set<Pid>, pid: Pid, me: Pid): seq<Step> {
    if pid !in alive || looks.file.path.None? then [] else LockSteps(looks, me)
  }

  /** When nothing moves between the looks, the answer is the protocol's about that one state. */
  lemma UndisturbedAnswer(s: State, alive: set<Pid>, pid: Pid)
    ensures AnswerOf(Looks(s, s, s, s), alive, pid) == Verify(s, alive, pid)
  {
  }

  /** The session directory and the kernel's lock table, as process `me` acts on them. */
  class Host {
    const me: Pid
    const generatedBy: Option<Pid>
    var state: State

    /** The steps that `me` has taken. */
    ghost var own: seq<Step>

    /** The lock table is right about `me`, and session.lock names an existing inode if any. */
    ghost predicate Valid()
      reads this
    {
      RightAbout(state, me) && state.generatedBy == generatedBy
    }

    ghost function Mine(): Process
      reads this
    {
      ProcessOf(state, me)
    }

    /** `me` has inode i open and locked, and i records its pid. */
    ghost predicate Holds(i: Inode)
      reads this
    {
      && Mine().ino == i && i in state.holder && state.holder[i] == me
      && i in state.record && state.record[i] == PidLine(me)
    }

    constructor (me: Pid, session: State)
      requires RightAbout(session, me) && StageOf(session, me).Idle?
      ensures Valid() && state == session && own == [] && this.me == me
    {
      this.me, generatedBy, state, own := me, session.generatedBy, session, [];
    }

    /** Any steps of any other processes, as far as `me` can rely on them; see OthersLeaveProcessAlone. */
    method Yield()
      requires Valid()
      modifies this
      ensures Valid() && Mine() == old(Mine()) && own == old(own)
    {
    }

    // ------------------------------------------------------------ system calls

    method OpenLock() returns (fd: Inode)
      requires Valid() && Mine().stage.Idle?
      modifies this
      ensures Valid() && state == Apply(old(state), Open(me)) && own == old(own) + [Open(me)]
      ensures Mine() == Process(Opened, fd)
    {
      StepKeepsRight(state, Open(me));
      if state.path.None? {
        state := state.(path := Some(state.next), record := state.record[state.next := Blank], next := state.next + 1);
      }
      fd := state.path.value;
      state, own := state.(procs := state.procs[me := Process(Opened, fd)]), own + [Open(me)];
    }

    method TryLock(fd: Inode) returns (won: bool)
      requires Valid() && Mine() == Process(Opened, fd)
      modifies this
      ensures Valid() && state == Apply(old(state), Flock(me)) && own == old(own) + [Flock(me)]
      ensures won <==> fd !in old(state.holder)
      ensures Mine() == Process(if won then Locked else Finished, fd)
    {
      StepKeepsRight(state, Flock(me));
      won := fd !in state.holder;
      if won {
        state := state.(holder := state.holder[fd := me]);
      }
      state, own := Enter(state, me, if won then Locked else Finished), own + [Flock(me)];
    }

    method TruncateLock(fd: Inode)
      requires Valid() && Mine() == Process(Locked, fd)
      modifies this
      ensures Valid() && state == Apply(old(state), Truncate(me)) && own == old(own) + [Truncate(me)]
      ensures Mine() == Process(Truncated, fd)
    {
      StepKeepsRight(state, Truncate(me));
      state := state.(record := state.record[fd := Blank]);
      state, own := Enter(state, me, Truncated), own + [Truncate(me)];
    }

    method WritePidLine(fd: Inode)
      requires Valid() && Mine() == Process(Truncated, fd)
      modifies this
      ensures Valid() && state == Apply(old(state), WritePid(me)) && own == old(own) + [WritePid(me)]
      ensures Mine() == Process(Recorded, fd)
    {
      StepKeepsRight(state, WritePid(me));
      state := state.(record := state.record[fd := PidLine(me)]);
      state, own := Enter(state, me, Recorded), own + [WritePid(me)];
    }

    // ------------------------------------------------------------ identity.py

    /** Opens the lock file and tries its flock: the first half of an acquire, all of it for a loser. */
    method OpenAndFlock() returns (won: bool, fd: Inode)
      requires Valid() && Mine().stage.Idle?
      modifies this
      ensures Valid() && Mine() == Process(if won then Locked else Finished, fd)
      ensures own == old(own) + [Open(me), Flock(me)]
    {
      Yield();
      fd := OpenLock();
      Yield();
      won := TryLock(fd);
      Yield();
    }

    /** Records the pid in a lock file that `me` has locked. */
    method RecordPid(fd: Inode)
      requires Valid() && Mine() == Process(Locked, fd)
      modifies this
      ensures Valid() && Mine() == Process(Recorded, fd)
      ensures own == old(own) + [Truncate(me), WritePid(me)]
    {
      TruncateLock(fd);
      Yield();
      WritePidLine(fd);
      Yield();
    }

    /** The descriptor once it holds the lock and the pid is on record, or None when the lock was taken. */
    method AcquireSessionLock() returns (fd: Option<Inode>)
      requires Valid() && Mine().stage.Idle?
      modifies this
      ensures Valid()
      ensures fd.Some? ==>
        Mine() == Process(Recorded, fd.value) && Holds(fd.value) && own == old(own) + AcquireSteps(me)
      ensures fd.None? ==> Mine().stage.Finished? && own == old(own) + [Open(me), Flock(me)]
    {
      var won, ino := OpenAndFlock();
      if !won {
        return None;
      }
      RecordPid(ino);
      fd := Some(ino);
    }

    method UnlinkName(fd: Inode)
      requires Valid() && Enabled(state, Unlink(me)) && Mine().ino == fd
      modifies this
      ensures Valid() && state == Apply(old(state), Unlink(me)) && own == old(own) + [Unlink(me)]
      ensures Mine() == Process(if old(Mine()).stage.Failing? then Dropped else Unlinked, fd)
    {
      StepKeepsRight(state, Unlink(me));
      var next := if StageOf(state, me).Failing? then Dropped else Unlinked;
      state, own := Enter(state.(path := None), me, next), own + [Unlink(me)];
    }

    method CloseLock(fd: Inode)
      requires Valid() && Enabled(state, Close(me)) && Mine().ino == fd
      modifies this
      ensures Valid() && state == Apply(old(state), Close(me)) && own == old(own) + [Close(me)]
      ensures Mine() == Process(if old(Mine()).stage.Dropped? then Finished else Closed, fd)
    {
      StepKeepsRight(state, Close(me));
      var next := if StageOf(state, me).Dropped? then Finished else Closed;
      state, own := Enter(state.(holder := state.holder - {fd}), me, next), own + [Close(me)];
    }

    /** Unlinks session.lock, whatever it names by now, and closes the descriptor: `me` holds no lock any more. */
    method ReleaseSessionLock(fd: Inode)
      requires Valid() && Enabled(state, Unlink(me)) && Mine().ino == fd
      modifies this
      ensures Valid() && own == old(own) + ReleaseSteps(me)
      ensures Mine() == Process(if old(Mine()).stage.Failing? then Finished else Closed, fd)
      ensures forall i | i in state.holder :: state.holder[i] != me
    {
      Yield();
      UnlinkName(fd);
      Yield();
      CloseLock(fd);
      Yield();
    }

    method OpenForProbe() returns (fd: Inode)
      requires Valid() && Enabled(state, ProbeOpen(me))
      modifies this
      ensures Valid() && state == Apply(old(state), ProbeOpen(me)) && own == old(own) + [ProbeOpen(me)]
      ensures old(state.path) == Some(fd) && Mine() == Process(ProbeOpened, fd)
    {
      StepKeepsRight(state, ProbeOpen(me));
      fd := state.path.value;
      state, own := state.(procs := state.procs[me := Process(ProbeOpened, fd)]), own + [ProbeOpen(me)];
    }

    method TryProbeLock(fd: Inode) returns (won: bool)
      requires Valid() && Mine() == Process(ProbeOpened, fd)
      modifies this
      ensures Valid() && state == Apply(old(state), ProbeFlock(me)) && own == old(own) + [ProbeFlock(me)]
      ensures won <==> fd !in old(state.holder)
      ensures Mine() == Process(if won then ProbeLocked else Idle, fd)
    {
      StepKeepsRight(state, ProbeFlock(me));
      won := fd !in state.holder;
      if won {
        state := state.(holder := state.holder[fd := me]);
      }
      state, own := Enter(state, me, if won then ProbeLocked else Idle), own + [ProbeFlock(me)];
    }

    method CloseProbe(fd: Inode)
      requires Valid() && Mine() == Process(ProbeLocked, fd)
      modifies this
      ensures Valid() && state == Apply(old(state), ProbeClose(me)) && own == old(own) + [ProbeClose(me)]
      ensures Mine() == Process(Idle, fd)
    {
      StepKeepsRight(state, ProbeClose(me));
      state, own := Enter(state.(holder := state.holder - {fd}), me, Idle), own + [ProbeClose(me)];
    }

    /** Tries the flock, and lets it go again at once. */
    method ProbeLock(fd: Inode) returns (won: bool)
      requires Valid() && Mine() == Process(ProbeOpened, fd)
      modifies this
      ensures Valid() && Mine().stage.Idle? && (won <==> fd !in old(state.holder))
      ensures own == old(own) + if won then [ProbeFlock(me), ProbeClose(me)] else [ProbeFlock(me)]
    {
      won := TryProbeLock(fd);
      Yield();
      if won {
        CloseProbe(fd);
      }
    }

    method ReadLock(pid: Pid) returns (check: Check)
      requires Valid()
      ensures check == ReadRecord(state, pid)
    {
      if state.path.None? || !state.record[state.path.value].PidLine? {
        return Unavailable;
      }
      check := if state.record[state.path.value].pid != pid then Mismatch else Match;
    }

    /** `_check_lock`: open, flock, and a look at the record when the lock is taken. */
    method CheckLock(pid: Pid, ghost before: Looks) returns (check: Check, ghost looks: Looks)
      requires Valid() && Mine().stage.Idle?
      modifies this
      ensures Valid() && Mine().stage.Idle? && looks.file == before.file
      ensures check == LockAnswer(looks, pid) && own == old(own) + LockSteps(looks, me)
    {
      looks := before.(opening := state);
      if state.path.None? {
        return Unavailable, looks;
      }
      var fd := OpenForProbe();
      Yield();
      looks := looks.(trying := state);
      var won := ProbeLock(fd);
      if won {
        return NotFound, looks;
      }
      looks := looks.(reading := state);
      check := ReadLock(pid);
    }

    /**
     verify_session with other processes between any two of its system calls. The answer is that of
     the states it looked at, each at its own moment; the file is read by name and not by descriptor.
     */
    method VerifySession(alive: set<Pid>, pid: Pid) returns (check: Check, ghost looks: Looks)
      requires Valid() && Mine().stage.Idle?
      modifies this
      ensures Valid() && Mine().stage.Idle? && check == AnswerOf(looks, alive, pid)
      ensures check == Match <==>
        && pid in alive && looks.file.path.Some? && looks.opening.path.Some?
        && looks.opening.path.value in looks.trying.holder && looks.reading.path.Some?
        && looks.reading.path.value in looks.reading.record
        && looks.reading.record[looks.reading.path.value] == PidLine(pid)
      ensures check == Mismatch <==>
        && pid in alive && looks.file.path.Some? && looks.opening.path.Some?
        && looks.opening.path.value in looks.trying.holder && looks.reading.path.Some?
        && looks.reading.path.value in looks.reading.record
        && looks.reading.record[looks.reading.path.value].PidLine?
        && looks.reading.record[looks.reading.path.value] != PidLine(pid)
      ensures check == NotFound <==>
        || pid !in alive || looks.file.path.None?
        || (looks.opening.path.Some? && looks.opening.path.value !in looks.trying.holder)
      ensures own == old(own) + ProbeSteps(looks, alive, pid, me)
    {
      looks := Looks(state, state, state, state);
      if pid !in alive {
        return NotFound, looks;
      }
      Yield();
      looks := looks.(file := state);
      if state.path.None? {
        return NotFound, looks;
      }
      Yield();
      check, looks := CheckLock(pid, looks);
    }

    // ------------------------------------------------------------ session.py

    /** A call that raises on the way: an rmtree may have removed any of the files by then. */
    method Raise(lost: set<string>)
      requires Valid() && Enabled(state, Fail(me, lost))
      modifies this
      ensures Valid() && state == Apply(old(state), Fail(me, lost)) && own == old(own) + [Fail(me, lost)]
      ensures Mine() == Process(Failing, old(Mine()).ino)
      ensures if !old(state.slot).Directory? then state.slot == old(state.slot)
              else state.slot.Directory? && forall name | name in old(state.slot).files && name !in lost ::
                name in state.slot.files && state.slot.files[name] == old(state.slot).files[name]
    {
      StepKeepsRight(state, Fail(me, lost));
      state, own := Enter(Losing(state, lost), me, Failing), own + [Fail(me, lost)];
    }

    /** `_reclaim_data_slot`: wipes a dead session's directory unless the rmtree raises, refuses anything else. */
    method ReclaimDataSlot(fd: Inode) returns (error: Option<SessionError>, ghost step: Step)
      requires Valid() && Mine() == Process(Recorded, fd)
      modifies this
      ensures Valid() && Enabled(old(state), step) && state == Apply(old(state), step) && own == old(own) + [step]
      ensures Mine() == Process(if error.None? then Wiped else Failing, fd)
      ensures if error == Some(IoError) then old(state.slot).Directory? && step == Fail(me, step.lost)
              else step == Reclaim(me) && error == Refusal(old(state.slot))
    {
      step := Reclaim(me);
      StepKeepsRight(state, step);
      error := None;
      if state.slot.Symlink? {
        error := Some(SlotIsSymlink);
      } else if !state.slot.Absent? {
        if state.slot.NotADirectory? {
          error := Some(SlotIsNotDirectory);
        } else if state.slot.ForeignOwned? {
          error := Some(SlotIsForeign);
        } else {
          var raises: bool, lost: set<string> := *, *;
          if raises {
            Raise(lost);
            return Some(IoError), Fail(me, lost);
          }
          state := state.(slot := Absent);
        }
      }
      state, own := Enter(state, me, if error.None? then Wiped else Failing), own + [Reclaim(me)];
    }

    /** data.mkdir(mode=0o700), which refuses an existing entry, and may fail in other ways. */
    method MakeDataSlot(fd: Inode) returns (error: Option<SessionError>, ghost step: Step)
      requires Valid() && Mine() == Process(Wiped, fd)
      modifies this
      ensures Valid() && Enabled(old(state), step) && state == Apply(old(state), step) && own == old(own) + [step]
      ensures Mine() == Process(if error.None? then Made else Failing, fd)
      ensures step == Mkdir(me) || (step == Fail(me, {}) && error.Some?)
      ensures error == None || error == Some(IoError)
      ensures error.None? ==> old(state.slot).Absent?
    {
      step := Mkdir(me);
      StepKeepsRight(state, step);
      error := if state.slot.Absent? then None else Some(IoError);
      if error.None? {
        var raises: bool := *;
        if raises {
          Raise({});
          return Some(IoError), Fail(me, {});
        }
        state := state.(slot := Directory(map[]));
      }
      state, own := Enter(state, me, if error.None? then Made else Failing), own + [Mkdir(me)];
    }

    /** Wipes and remakes tunnel-data/ for a process that holds the lock. */
    method PrepareDataSlot(fd: Inode) returns (error: Option<SessionError>, ghost steps: seq<Step>)
      requires Valid() && Mine() == Process(Recorded, fd)
      modifies this
      ensures Valid() && Mine() == Process(if error.None? then Made else Failing, fd)
      ensures error != Some(NotAbsolute) && own == old(own) + steps
      ensures if error.None? then steps == [Reclaim(me), Mkdir(me)] else IsFailedPreparation(steps, me)
    {
      ghost var step;
      error, step := ReclaimDataSlot(fd);
      steps := [step];
      Yield();
      if error.None? {
        error, step := MakeDataSlot(fd);
        steps := [Reclaim(me), step];
        Yield();
      }
    }

    /** The same, and on an error the lock is given back. */
    method PrepareOrRelease(fd: Inode) returns (error: Option<SessionError>, ghost steps: seq<Step>)
      requires Valid() && Mine() == Process(Recorded, fd)
      modifies this
      ensures Valid() && error != Some(NotAbsolute)
      ensures error.None? ==> Mine() == Process(Made, fd) && own == old(own) + [Reclaim(me), Mkdir(me)]
      ensures error.Some? ==>
        && Mine().stage.Finished? && (forall i | i in state.holder :: state.holder[i] != me)
        && IsFailedPreparation(steps, me) && own == old(own) + steps + ReleaseSteps(me)
    {
      error, steps := PrepareDataSlot(fd);
      if error.Some? {
        ReleaseSessionLock(fd);
      }
    }

    /** os.write of a file's content: how much of it was taken. */
    method OsWrite(content: string) returns (taken: nat)
      ensures taken <= |content|
    {
      var n: int := *;
      taken := if 0 <= n <= |content| then n else |content|;
    }

    /** Opens, truncates and writes one file in tunnel-data/. */
    method PutFile(name: string, part: string)
      requires Valid() && Mine().stage.Serving? && state.slot.Directory?
      modifies this
      ensures Valid() && Mine() == old(Mine())
      ensures state == Apply(old(state), Materialize(me, name, part))
      ensures own == old(own) + [Materialize(me, name, part)]
    {
      StepKeepsRight(state, Materialize(me, name, part));
      state := state.(slot := Directory(state.slot.files[name := File(me, part)]));
      own := own + [Materialize(me, name, part)];
    }

    /** The same for daemon.pid. */
    method PutIdentity()
      requires Valid() && Mine().stage.Made? && state.slot.Directory?
      modifies this
      ensures Valid() && state == Apply(old(state), Step.WriteIdentity(me))
      ensures own == old(own) + [Step.WriteIdentity(me)] && Mine() == Process(Serving, old(Mine()).ino)
    {
      StepKeepsRight(state, Step.WriteIdentity(me));
      state := state.(slot := Directory(state.slot.files[DAEMON_PID := IdentityFile(me)]));
      state, own := Enter(state, me, Serving), own + [Step.WriteIdentity(me)];
    }

    /** shutil.rmtree of tunnel-data/, or of the whole directory where `me` had generated it. */
    method RemoveTree(whole: bool)
      requires Valid() && Mine().stage.Closed? && (whole <==> generatedBy == Some(me))
      modifies this
      ensures Valid() && state == Apply(old(state), Step.RemoveTree(me))
      ensures own == old(own) + [Step.RemoveTree(me)]
      ensures Mine() == Process(Finished, old(Mine()).ino) && state.holder == old(state.holder)
      ensures !state.slot.Directory? && (whole ==> state.path.None? && state.slot.Absent?)
    {
      StepKeepsRight(state, Step.RemoveTree(me));
      if whole {
        state := state.(path := None, slot := Absent);
      } else if state.slot.Directory? {
        state := state.(slot := Absent);
      }
      state, own := Enter(state, me, Finished), own + [Step.RemoveTree(me)];
    }
  }

  /** One daemon's hold on its session directory. */
  class SessionDir {
    const host: Host
    const lockFd: Inode
    const generated: bool

    constructor (host: Host, lockFd: Inode, generated: bool)
      ensures this.host == host && this.lockFd == lockFd && this.generated == generated
    {
      this.host, this.lockFd, this.generated := host, lockFd, generated;
    }

    /**
     Locks the session and (re)creates tunnel-data/. On success the lock is held and on record; on
     any failure after the lock was won it has been given back; a start that finds the lock taken
     touches nothing but its own descriptor.
     */
    static method Create(host: Host, supplied: Option<string>)
      returns (r: Result<SessionDir, CreateError>, ghost steps: seq<Step>)
      requires host.Valid() && host.Mine().stage.Idle?
      requires supplied.None? ==> host.generatedBy == Some(host.me)
      modifies host
      ensures host.Valid()
      ensures r.Ok? ==>
        && fresh(r.value) && r.value.host == host && r.value.generated == supplied.None?
        && host.Mine() == Process(Made, r.value.lockFd) && host.Holds(r.value.lockFd)
        && host.own == old(host.own) + CreateSteps(host.me)
      ensures r == Err(SessionActive) ==>
        host.Mine().stage.Finished? && host.own == old(host.own) + [Open(host.me), Flock(host.me)]
      ensures r == Err(Invalid(NotAbsolute)) <==> supplied.Some? && !("/" <= supplied.value)
      ensures r == Err(Invalid(NotAbsolute)) ==> host.Mine().stage.Idle? && host.own == old(host.own)
      ensures r.Err? && r.error.Invalid? && !r.error.error.NotAbsolute? ==>
        && host.Mine().stage.Finished? && (forall i | i in host.state.holder :: host.state.holder[i] != host.me)
        && IsFailedPreparation(steps, host.me)
        && host.own == old(host.own) + AcquireSteps(host.me) + steps + ReleaseSteps(host.me)
    {
      steps := [];
      if supplied.Some? && !IsAbsolute(supplied.value) {
        return Err(Invalid(NotAbsolute)), steps;
      }
      var lock := host.AcquireSessionLock();
      if lock.None? {
        return Err(SessionActive), steps;
      }
      var error;
      error, steps := host.PrepareOrRelease(lock.value);
      if error.Some? {
        return Err(Invalid(error.value)), steps;
      }
      var session := new SessionDir(host, lock.value, supplied.None?);
      r := Ok(session);
    }

    /** Writes daemon.pid into tunnel-data/, if that is still there. */
    method WriteIdentity() returns (written: bool)
      requires host.Valid() && host.Mine() == Process(Made, lockFd)
      modifies host
      ensures host.Valid() && written == old(host.state.slot).Directory?
      ensures written ==>
        && host.state == Apply(old(host.state), Step.WriteIdentity(host.me))
        && host.own == old(host.own) + [Step.WriteIdentity(host.me)]
        && host.Mine() == Process(Serving, lockFd)
      ensures !written ==> host.state == old(host.state) && host.own == old(host.own)
    {
      written := host.state.slot.Directory?;
      if written {
        host.PutIdentity();
      }
    }

    /**
     Writes one file into tunnel-data/; a name that could leave the directory is refused and nothing
     changes. The one os.write may take only the first part of the content, which nobody notices.
     */
    method MaterializeFile(name: string, content: string) returns (error: Option<SessionError>, ghost taken: nat)
      requires host.Valid() && host.Mine() == Process(Serving, lockFd)
      modifies host
      ensures host.Valid() && host.Mine() == old(host.Mine()) && taken <= |content|
      ensures error == Some(UnsafeName) <==> '/' in name || '\\' in name || name in ["", ".", ".."]
      ensures error.None? ==>
        && old(host.state.slot).Directory?
        && host.state == Apply(old(host.state), Materialize(host.me, name, content[..taken]))
        && host.own == old(host.own) + [Materialize(host.me, name, content[..taken])]
      ensures error.Some? ==> host.state == old(host.state) && host.own == old(host.own)
    {
      taken := 0;
      if !IsSafeName(name) {
        return Some(UnsafeName), taken;
      }
      if !host.state.slot.Directory? {
        return Some(IoError), taken;
      }
      var n := host.OsWrite(content);
      host.PutFile(name, content[..n]);
      error, taken := None, n;
    }

    /** Releases the lock first, then removes tunnel-data/, or the whole directory if it was generated. */
    method Cleanup()
      requires host.Valid() && (host.Mine().stage.Made? || host.Mine().stage.Serving?)
      requires host.Mine().ino == lockFd && (generated <==> host.generatedBy == Some(host.me))
      modifies host
      ensures host.Valid() && host.Mine().stage.Finished?
      ensures host.own == old(host.own) + ReleaseSteps(host.me) + [Step.RemoveTree(host.me)]
      ensures forall i | i in host.state.holder :: host.state.holder[i] != host.me
      ensures !host.state.slot.Directory?
      ensures generated ==> host.state.path.None? && host.state.slot.Absent?
    {
      host.ReleaseSessionLock(lockFd);
      host.RemoveTree(generated);
    }
  }
}
