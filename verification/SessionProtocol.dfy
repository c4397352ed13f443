/**
 The flock protocol of identity.py and the directory protocol of session.py, for any number of
 processes that share one session directory. Every system call is one step, so runs contain every
 interleaving; a process may crash between any two of its steps, upon which the kernel drops its
 flock while all files stay.
 */
module SessionProtocol {
  import opened Wrappers
  import opened Text

  type Pid = nat
  type Inode = nat

  /** What a lock file holds: nothing, a pid line, or bytes that are not an integer. */
  datatype Content = Blank | PidLine(pid: Pid) | Junk

  /** The identity file's name in tunnel-data/. */
  const DAEMON_PID := "daemon.pid"

  /** What a file holds, and who wrote it last. */
  datatype File = File(writer: Pid, content: string)

  /** tunnel-data/ as `_reclaim_data_slot` sees it. */
  datatype Slot =
    | Absent
    | Symlink
    | NotADirectory
    | ForeignOwned
    | Directory(files: map<string, File>)

  /** How far a process has come. */
  datatype Stage =
    | Idle
      // acquire_session_lock
    | Opened
    | Locked
    | Truncated
      // SessionDir.create after the lock was won, then the daemon's life
    | Recorded
    | Wiped
    | Made
    | Serving
    | Failing
      // release_session_lock, after create failed (Dropped) or as part of cleanup (Unlinked)
    | Dropped
    | Unlinked
    | Closed
    | Finished
    | Crashed
      // verify_session
    | ProbeOpened
    | ProbeLocked

  /** A process's stage and, while it has session.lock open, the inode of its descriptor. */
  datatype Process = Process(stage: Stage, ino: Inode)

  datatype Step =
    | Open(p: Pid)
    | Flock(p: Pid)
    | Truncate(p: Pid)
    | WritePid(p: Pid)
    | Reclaim(p: Pid)
    | Mkdir(p: Pid)
    | WriteIdentity(p: Pid)
    | Materialize(p: Pid, name: string, content: string)
    | Fail(p: Pid, lost: set<string>)
    | Unlink(p: Pid)
    | Close(p: Pid)
    | RemoveTree(p: Pid)
    | Crash(p: Pid)
    | ProbeOpen(p: Pid)
    | ProbeFlock(p: Pid)
    | ProbeClose(p: Pid)
    | StopCleanup

  /**
   `path` is what session.lock names. `generatedBy` is the process whose mkdtemp made the session
   directory, if any; its cleanup removes the whole directory instead of tunnel-data/ only.
   */
  datatype State = State(
    path: Option<Inode>,
    next: Inode,
    holder: map<Inode, Pid>,
    record: map<Inode, Content>,
    slot: Slot,
    generatedBy: Option<Pid>,
    procs: map<Pid, Process>)

  function ProcessOf(s: State, p: Pid): Process {
    if p in s.procs then s.procs[p] else Process(Idle, 0)
  }

  function StageOf(s: State, p: Pid): Stage {
    ProcessOf(s, p).stage
  }

  function InodeOf(s: State, p: Pid): Inode {
    ProcessOf(s, p).ino
  }

  /** Process p moves on to another stage and keeps its descriptor. */
  function Enter(s: State, p: Pid, stage: Stage): State {
    s.(procs := s.procs[p := Process(stage, InodeOf(s, p))])
  }

  predicate HasDescriptor(stage: Stage) {
    !(stage.Idle? || stage.Closed? || stage.Finished? || stage.Crashed?)
  }

  /** Won the lock and has not begun release. */
  predicate IsActiveStage(stage: Stage) {
    stage.Locked? || stage.Truncated? || stage.Recorded? || stage.Wiped? || stage.Made? || stage.Serving?
    || stage.Failing?
  }

  predicate IsActive(s: State, p: Pid) {
    IsActiveStage(StageOf(s, p))
  }

  predicate HoldsFlock(stage: Stage) {
    IsActiveStage(stage) || stage.Dropped? || stage.Unlinked? || stage.ProbeLocked?
  }

  /** From the pid write until the descriptor is closed. */
  predicate HasRecorded(stage: Stage) {
    HoldsFlock(stage) && !stage.Locked? && !stage.Truncated? && !stage.ProbeLocked?
  }

  predicate Enabled(s: State, step: Step) {
    match step
    case Open(p) => StageOf(s, p).Idle?
    case Flock(p) => StageOf(s, p).Opened?
    case Truncate(p) => StageOf(s, p).Locked?
    case WritePid(p) => StageOf(s, p).Truncated?
    case Reclaim(p) => StageOf(s, p).Recorded?
    case Mkdir(p) => StageOf(s, p).Wiped?
    case WriteIdentity(p) => StageOf(s, p).Made? && s.slot.Directory?
    case Materialize(p, _, _) => StageOf(s, p).Serving? && s.slot.Directory?
    case Fail(p, lost) => StageOf(s, p).Recorded? || (StageOf(s, p).Wiped? && lost == {})
    case Unlink(p) => StageOf(s, p).Failing? || StageOf(s, p).Made? || StageOf(s, p).Serving?
    case Close(p) => StageOf(s, p).Dropped? || StageOf(s, p).Unlinked?
    case RemoveTree(p) => StageOf(s, p).Closed?
    case Crash(p) => !StageOf(s, p).Crashed? && !StageOf(s, p).Finished?
    case ProbeOpen(p) => StageOf(s, p).Idle? && s.path.Some?
    case ProbeFlock(p) => StageOf(s, p).ProbeOpened?
    case ProbeClose(p) => StageOf(s, p).ProbeLocked?
    case StopCleanup => true
  }

  function Apply(s: State, step: Step): State
    requires Enabled(s, step)
  {
    match step
    case Open(p) => OpenCreate(s, p)
    case Flock(p) => TryFlock(s, p, Locked, Finished)
    case Truncate(p) => Enter(Record(s, p, Blank), p, Truncated)
    case WritePid(p) => Enter(Record(s, p, PidLine(p)), p, Recorded)
    case Reclaim(p) =>
      if s.slot.Absent? || s.slot.Directory? then Enter(s.(slot := Absent), p, Wiped) else Enter(s, p, Failing)
    case Mkdir(p) =>
      if s.slot.Absent? then Enter(s.(slot := Directory(map[])), p, Made) else Enter(s, p, Failing)
    case WriteIdentity(p) => Enter(s.(slot := Directory(s.slot.files[DAEMON_PID := IdentityFile(p)])), p, Serving)
    case Materialize(p, name, content) => s.(slot := Directory(s.slot.files[name := File(p, content)]))
    case Fail(p, lost) => Enter(Losing(s, lost), p, Failing)
    case Unlink(p) => Enter(s.(path := None), p, if StageOf(s, p).Failing? then Dropped else Unlinked)
    case Close(p) => Enter(Unflock(s, p), p, if StageOf(s, p).Dropped? then Finished else Closed)
    case RemoveTree(p) =>
      Enter(if s.generatedBy == Some(p) then s.(path := None, slot := Absent) else Removed(s), p, Finished)
    case Crash(p) => Enter(if HoldsFlock(StageOf(s, p)) then Unflock(s, p) else s, p, Crashed)
    case ProbeOpen(p) => s.(procs := s.procs[p := Process(ProbeOpened, s.path.value)])
    case ProbeFlock(p) => TryFlock(s, p, ProbeLocked, Idle)
    case ProbeClose(p) => Enter(Unflock(s, p), p, Idle)
    case StopCleanup => Removed(s)
  }

  /** daemon.pid as write_identity writes it. */
  function IdentityFile(p: Pid): File {
    File(p, Decimal(p) + "\n")
  }

  /** int(text.strip()) on a line of plain decimal digits; other texts that Python reads are refused here. */
  function ReadPid(text: string): Option<Pid> {
    if text != [] && text[|text| - 1] == '\n' then ReadDecimal(text[..|text| - 1]) else ReadDecimal(text)
  }

  /** read_identity; what stands behind a symlink or in somebody else's directory is given as `foreign`. */
  function ReadIdentity(s: State, foreign: Option<string>): Option<Pid> {
    match s.slot
    case Directory(files) => if DAEMON_PID in files then ReadPid(files[DAEMON_PID].content) else None
    case Symlink => if foreign.Some? then ReadPid(foreign.value) else None
    case ForeignOwned => if foreign.Some? then ReadPid(foreign.value) else None
    case _ => None
  }

  lemma IdentityReadsBack(p: Pid)
    ensures ReadPid(IdentityFile(p).content) == Some(p)
  {
    var text := IdentityFile(p).content;
    assert text[..|text| - 1] == Decimal(p);
    ReadDecimalInvertsDecimal(p);
  }

  /** Opens session.lock with O_CREAT: the named inode, or a fresh empty one. */
  function OpenCreate(s: State, p: Pid): State {
    match s.path
    case Some(i) => s.(procs := s.procs[p := Process(Opened, i)])
    case None =>
      s.(path := Some(s.next),
         next := s.next + 1,
         record := s.record[s.next := Blank],
         procs := s.procs[p := Process(Opened, s.next)])
  }

  /** A non-blocking exclusive flock on the inode p has open; who loses closes its descriptor. */
  function TryFlock(s: State, p: Pid, won: Stage, lost: Stage): State {
    if InodeOf(s, p) in s.holder then Enter(s, p, lost)
    else Enter(s.(holder := s.holder[InodeOf(s, p) := p]), p, won)
  }

  function Unflock(s: State, p: Pid): State {
    s.(holder := s.holder - {InodeOf(s, p)})
  }

  function Record(s: State, p: Pid, content: Content): State {
    s.(record := s.record[InodeOf(s, p) := content])
  }

  /** shutil.rmtree(tunnel-data, ignore_errors=True): it removes an own directory and leaves anything else alone. */
  function Removed(s: State): State {
    if s.slot.Directory? then s.(slot := Absent) else s
  }

  /** What an rmtree that raises leaves behind: a directory without the files that it had got to. */
  function Losing(s: State, lost: set<string>): State {
    if s.slot.Directory? then s.(slot := Directory(s.slot.files - lost)) else s
  }

  /** A run: every step is enabled where it is taken. */
  predicate IsRun(s: State, steps: seq<Step>)
    decreases |steps|
  {
    steps == [] || (Enabled(s, steps[0]) && IsRun(Apply(s, steps[0]), steps[1..]))
  }

  function Exec(s: State, steps: seq<Step>): State
    requires IsRun(s, steps)
    decreases |steps|
  {
    if steps == [] then s else Exec(Apply(s, steps[0]), steps[1..])
  }

  /** Before any process starts: files left behind by crashed sessions may exist, locks do not. */
  ghost predicate Initial(s: State) {
    && s.procs == map[]
    && s.holder == map[]
    && (forall i: Inode :: i in s.record <==> i < s.next)
    && (s.path.Some? ==> s.path.value < s.next)
  }

  /** verify_session, taken as one atomic look at the session; `alive` answers os.kill(pid, 0). */
  datatype Check = Match | Mismatch | NotFound | Unavailable

  function Verify(s: State, alive: set<Pid>, pid: Pid): Check {
    if pid !in alive then NotFound
    else if s.path.None? then NotFound
    else if s.path.value !in s.holder then NotFound
    else if s.path.value !in s.record || !s.record[s.path.value].PidLine? then Unavailable
    else if s.record[s.path.value].pid != pid then Mismatch
    else Match
  }
}
