/**
 _worker.py: the daemon's life, from locking the session to giving it back, with the one message
 that it writes to its parent and what the parent makes of it. The pipe may fail at any character.
 */
module Worker {
  import opened Wrappers
  import opened SessionProtocol
  import opened SessionDirectory
  import opened Nodes
  import opened Manager
  import opened Faults
  import opened TunnelManager
  import opened Messages
  import opened Activity
  import opened Watchdog

  /** How the worker ends: by os._exit with a code, or by an exception that nothing catches. */
  datatype Outcome = Exited(code: int) | Escaped

  datatype WriteError = ShortWrite | OsError

  /** A run of the idle watchdog: what came to it, and its verdict after so many sleeps. */
  datatype Watch = Watch(
    timeout: nat, born: real, begin: real, before: seq<Hook>, sleeps: seq<Sleep>, overrun: real,
    verdict: Watchdog.Verdict, slept: nat)

  /** How serving ends: by a signal, or by the idle watchdog if there is one and it fires. */
  datatype Reason = NotServing | Ended(watch: Option<Watch>)

  type Payloads = Kind -> Json

  function ExitCode(kind: Kind): int {
    match kind
    case Success => 0
    case RequiredFailed => 2
    case Active => 3
    case DaemonFailed => 4
  }

  // ---------------------------------------------------------------- what the start comes to

  /**
   A readable schema and a course of its start. Either all coroutines come to their ends, or some raise
   an error that `_start_one` does not list and gather passes it on.
   */
  datatype Job = Job(course: Course, timeout: Option<nat>)

  ghost predicate IsJob(job: Job) {
    IsCourse(job.course) && (IsFaulty(job) || AllDone(AtStop(job.course).tasks))
  }

  ghost predicate IsFaulty(job: Job)
    requires IsCourse(job.course)
  {
    AnyRaised(AtStop(job.course).tasks)
  }

  ghost function Verdict(job: Job): Kind
    requires IsJob(job)
  {
    if IsFaulty(job) then DaemonFailed
    else if Report(job.course.plans, Outcomes(job.course.config, job.course.plans)).Started? then Success
    else RequiredFailed
  }

  /** The transports that are still open when the session is given back; see Faults. */
  ghost function LeftBehind(job: Job): multiset<Resource>
    requires IsJob(job)
  {
    if IsFaulty(job) then LeftOpen(job.course) else multiset{}
  }

  /** Such a job: the worker fails, and gives the session back with a connection open. */
  lemma RaisingLeavesConnection(config: Config)
    ensures var job := Job(RaisingAtKube(config), None);
      IsJob(job) && Verdict(job) == DaemonFailed && LeftBehind(job) == multiset{Connection("n")}
  {
    RaisingKeepsConnection(config);
  }

  // ---------------------------------------------------------------- the pipe

  /** One message and a newline; all of it is ASCII. */
  function Frame(payloads: Payloads, kind: Kind): string {
    Print(Message(kind, payloads(kind))) + "\n"
  }

  /** The kind that spawn_daemon returns; without a message it raises a DaemonError. */
  function KindRead(sent: string): Kind {
    match Read(sent)
    case None => DaemonFailed
    case Some(kind) => kind
  }

  /** The worker refused the start, and the pipe took less than the whole of that message. */
  predicate IsCutShort(payloads: Payloads, sent: string, kind: Kind) {
    kind.Active? && |sent| < |Print(Message(Active, payloads(Active)))|
  }

  /** The parent was sent this kind of message, all of it where the exit code relies on that. */
  ghost predicate Tells(payloads: Payloads, sent: string, kind: Kind, outcome: Outcome) {
    var line := Print(Message(kind, payloads(kind))) + "\n";
    && sent <= line
    && (outcome.Exited? ==> outcome.code == ExitCode(kind))
    && (outcome.Exited? && (kind.Success? || kind.RequiredFailed?) ==> sent == line)
  }

  /** On a regular exit the parent reads the kind that was meant, unless it is a refusal that was cut short. */
  lemma KindIsReadExactlyIf(payloads: Payloads, sent: string, kind: Kind, outcome: Outcome)
    requires Tells(payloads, sent, kind, outcome) && outcome.Exited?
    ensures KindRead(sent) == kind <==> !IsCutShort(payloads, sent, kind)
    ensures IsCutShort(payloads, sent, kind) ==> KindRead(sent) == DaemonFailed
  {
    PartsReadAsNothing(kind, payloads(kind), sent);
  }

  /** The worker's end of the pipe; a broken one takes nothing at all. */
  class Pipe {
    const broken: bool
    ghost var sent: string

    /** What os.write answered last. */
    ghost var answer: Option<nat>

    constructor (broken: bool)
      ensures sent == [] && this.broken == broken
    {
      this.broken, sent, answer := broken, [], None;
    }

    /** os.write: it takes some of the characters, perhaps none, or fails. */
    method OsWrite(text: string) returns (written: Option<nat>)
      modifies this
      ensures answer == written
      ensures written.None? ==> sent == old(sent)
      ensures written.Some? ==> written.value <= |text| && sent == old(sent) + text[..written.value]
      ensures broken ==> written.None?
    {
      var fails: bool, n: int := *, *;
      if broken || fails {
        answer := None;
        return None;
      }
      n := if 0 <= n <= |text| then n else |text|;
      sent, answer := sent + text[..n], Some(n);
      written := Some(n);
    }

    /** os.close, which may fail as well. */
    method OsClose() returns (ok: bool) {
      ok := *;
    }

    /** `_write_message`: all of the frame, or a part that is short by at least one character, and an error. */
    method WriteMessage(frame: string) returns (error: Option<WriteError>)
      requires frame != []
      modifies this
      ensures error.None? ==> sent == old(sent) + frame
      ensures error == Some(ShortWrite) <==> answer == Some(0)
      ensures error == Some(OsError) <==> answer == None
      ensures error.Some? ==> exists k: nat :: k < |frame| && sent == old(sent) + frame[..k]
      ensures broken ==> error == Some(OsError) && sent == old(sent)
    {
      var rest := frame;
      while rest != []
        invariant |rest| <= |frame| && rest == frame[|frame| - |rest|..]
        invariant sent == old(sent) + frame[..|frame| - |rest|]
        invariant broken ==> rest == frame
        invariant rest == frame || (answer.Some? && answer.value > 0)
        decreases |rest|
      {
        ghost var done := |frame| - |rest|;
        var written := OsWrite(rest);
        if written.None? {
          assert sent == old(sent) + frame[..done];
          return Some(OsError);
        }
        assert frame[..done] + rest[..written.value] == frame[..done + written.value];
        if written.value == 0 {
          return Some(ShortWrite);
        }
        rest := rest[written.value..];
      }
      assert frame[..|frame|] == frame;
      error := None;
    }

    /** `_report_pre_run_failure`: an OSError is swallowed, a short write is not. */
    method ReportFailure(payloads: Payloads) returns (escaped: bool)
      requires sent == []
      modifies this
      ensures Tells(payloads, sent, DaemonFailed, if escaped then Escaped else Exited(4))
      ensures escaped <==> answer == Some(0)
      ensures escaped ==> sent != Frame(payloads, DaemonFailed)
      ensures broken ==> sent == [] && !escaped
    {
      var error := WriteMessage(Frame(payloads, DaemonFailed));
      escaped := error == Some(ShortWrite);
    }

    /** Writes a frame and closes the pipe; either failure escapes. */
    method Answer(frame: string) returns (ok: bool)
      requires sent == [] && frame != []
      modifies this
      ensures sent <= frame && (ok ==> sent == frame)
    {
      var error := WriteMessage(frame);
      if error.Some? {
        return false;
      }
      ok := OsClose();
    }
  }

  /** What SessionDir.create's failure means for the exit: the parent is told as far as the pipe allows. */
  method Reject(pipe: Pipe, payloads: Payloads, error: CreateError) returns (outcome: Outcome, ghost kind: Kind)
    requires pipe.sent == []
    modifies pipe
    ensures Tells(payloads, pipe.sent, kind, outcome) && kind == if error.SessionActive? then Active else DaemonFailed
    ensures outcome == Escaped || outcome == Exited(if error.SessionActive? then 3 else 4)
    ensures outcome == Escaped <==> pipe.answer == Some(0)
    ensures pipe.broken ==> pipe.sent == [] && outcome != Escaped
  {
    if error.SessionActive? {
      kind := Active;
      var failure := pipe.WriteMessage(Frame(payloads, Active));
      if failure == Some(ShortWrite) {
        return Escaped, kind;
      }
      if failure.None? {
        var _ := pipe.OsClose();
      }
      return Exited(3), kind;
    }
    kind := DaemonFailed;
    var escaped := pipe.ReportFailure(payloads);
    outcome := if escaped then Escaped else Exited(4);
  }

  /** A refused start over a broken pipe: the worker exits with 3, and the parent reads nothing. */
  method RefuseOverBrokenPipe(payloads: Payloads) returns (outcome: Outcome, pipe: Pipe)
    ensures fresh(pipe) && pipe.broken && outcome == Exited(3) && KindRead(pipe.sent) == DaemonFailed
  {
    ghost var kind;
    pipe := new Pipe(true);
    outcome, kind := Reject(pipe, payloads, SessionActive);
  }

  // ---------------------------------------------------------------- the life of a session

  /** What cleaning up adds to the steps of the process. */
  function CleanupSteps(p: Pid): seq<Step> {
    ReleaseSteps(p) + [Step.RemoveTree(p)]
  }

  /** The steps from the won lock to the end, on a regular exit. */
  function LifeSteps(me: Pid, identified: bool): seq<Step> {
    (if identified then [Step.WriteIdentity(me)] else []) + CleanupSteps(me)
  }

  ghost function KindFor(job: Option<Job>): Kind
    requires job.Some? ==> IsJob(job.value)
  {
    if job.None? then DaemonFailed else Verdict(job.value)
  }

  ghost function LeftBy(job: Option<Job>): multiset<Resource>
    requires job.Some? ==> IsJob(job.value)
  {
    if job.None? then multiset{} else LeftBehind(job.value)
  }

  /** daemon.auto_stop_idle_seconds */
  function TimeoutOf(job: Option<Job>): Option<nat> {
    if job.None? then None else job.value.timeout
  }

  /** The session is locked and prepared, and this process is the one that did it. */
  ghost predicate IsOwn(session: SessionDir, stage: Stage)
    reads session.host
  {
    && session.host.Valid() && session.host.Mine() == Process(stage, session.lockFd)
    && (session.generated <==> session.host.generatedBy == Some(session.host.me))
  }

  /** After a regular exit the session was cleaned up exactly once, with just these transports open; else not at all. */
  ghost predicate HasEnded(
      session: SessionDir, outcome: Outcome, open: Option<multiset<Resource>>, left: multiset<Resource>,
      before: seq<Step>)
    reads session.host
  {
    if outcome.Exited? then
      && open == Some(left) && session.host.Mine().stage.Finished?
      && session.host.own == before + CleanupSteps(session.host.me)
    else
      open.None? && session.host.own == before
  }

  /** session.cleanup(), and which transports are open when it gives the lock back. */
  method CleanUp(session: SessionDir, manager: TunnelManager?) returns (ghost open: multiset<Resource>)
    requires IsOwn(session, Stage.Made) || IsOwn(session, Serving)
    modifies session.host
    ensures session.host.Valid() && session.host.Mine().stage.Finished?
    ensures session.host.own == old(session.host.own) + CleanupSteps(session.host.me)
    ensures open == if manager == null then multiset{} else manager.started - manager.closed
  {
    open := if manager == null then multiset{} else manager.started - manager.closed;
    session.Cleanup();
  }

  /** The schema on stdin was not readable. */
  method RefuseSchema(session: SessionDir, pipe: Pipe, payloads: Payloads)
    returns (outcome: Outcome, ghost open: Option<multiset<Resource>>)
    requires IsOwn(session, Serving) && pipe.sent == []
    modifies session.host, pipe
    ensures session.host.Valid() && Tells(payloads, pipe.sent, DaemonFailed, outcome)
    ensures HasEnded(session, outcome, open, multiset{}, old(session.host.own))
  {
    var escaped := pipe.ReportFailure(payloads);
    if escaped {
      return Escaped, None;
    }
    var _ := pipe.OsClose();
    ghost var left := CleanUp(session, null);
    return Exited(4), Some(left);
  }

  /** stop_all in the handler of other exceptions, and what the coroutines do while it closes. */
  method StopLate(manager: TunnelManager, job: Job)
    requires IsJob(job) && IsFaulty(job) && manager.Valid() && manager.Snapshot() == AtStop(job.course)
    requires manager.config == job.course.config && manager.plans == job.course.plans
    modifies manager
    ensures manager.started - manager.closed == LeftBehind(job)
  {
    manager.StopAll();
    manager.StartAll(job.course.late);
    assert manager.Snapshot() == AtEnd(job.course);
  }

  /** The handler of all other exceptions around the start. */
  method HandleFault(session: SessionDir, pipe: Pipe, payloads: Payloads, manager: TunnelManager)
    returns (outcome: Outcome, ghost open: Option<multiset<Resource>>)
    requires IsOwn(session, Serving) && pipe.sent == []
    modifies session.host, pipe
    ensures session.host.Valid() && Tells(payloads, pipe.sent, DaemonFailed, outcome)
    ensures outcome == Escaped || outcome == Exited(4)
    ensures HasEnded(session, outcome, open, manager.started - manager.closed, old(session.host.own))
  {
    var escaped := pipe.ReportFailure(payloads);
    if escaped {
      return Escaped, None;
    }
    var _ := pipe.OsClose();
    ghost var left := CleanUp(session, manager);
    return Exited(4), Some(left);
  }

  /** The watchdog has run as it should, and fired only after the forwards were unused for the whole timeout. */
  ghost predicate IsWatch(w: Watch) {
    && IsTimeline(w.born, w.begin, w.before, w.sleeps, PollInterval(w.timeout), w.overrun)
    && IsVerdict(w.born, w.before, w.sleeps, w.timeout, false, w.verdict, w.slept)
    && (w.verdict.Fired? ==> WasUnused(HooksBy(w.before, w.sleeps, w.slept), w.verdict.at, w.timeout as real))
  }

  /** There is a watchdog exactly if the schema asks for one, and with the schema's timeout. */
  ghost predicate IsReason(reason: Reason, timeout: Option<nat>) {
    match reason
    case NotServing => true
    case Ended(None) => timeout.None?
    case Ended(Some(w)) => timeout == Some(w.timeout) && IsWatch(w)
  }

  /** What the world does with the forwards: any hooks before the watchdog starts, and any sleeps of it. */
  method UseForwards(trackers: Trackers, timeout: nat)
    returns (sleeps: seq<Sleep>, ghost begin: real, ghost overrun: real)
    requires trackers.Valid() && trackers.hooks == []
    modifies trackers, trackers.aggregate, trackers.trackers
    ensures trackers.Valid() && fresh(set t | t in trackers.trackers && t !in old(trackers.trackers))
    ensures IsTimeline(trackers.born, begin, trackers.hooks, sleeps, PollInterval(timeout), overrun)
  {
    sleeps, begin, overrun := [], trackers.born, 0.0;
  }

  /** The watchdog on the manager's own tracker. */
  method WatchForwards(trackers: Trackers, timeout: nat) returns (ghost w: Watch)
    requires trackers.Valid() && trackers.hooks == []
    modifies trackers, trackers.aggregate, trackers.trackers
    ensures w.timeout == timeout && IsWatch(w) && w.born == trackers.born
    ensures trackers.hooks == HooksBy(w.before, w.sleeps, w.slept)
  {
    var sleeps, begin, overrun := UseForwards(trackers, timeout);
    ghost var before := trackers.hooks;
    var verdict, slept := IdleWatchdog(trackers, timeout, false, sleeps, begin, overrun);
    w := Watch(timeout, trackers.born, begin, before, sleeps, overrun, verdict, slept);
  }

  /** `await stop_event.wait()` beside the idle watchdog, if the schema asks for one. */
  method AwaitStop(session: SessionDir, manager: TunnelManager, timeout: Option<nat>) returns (ghost reason: Reason)
    requires session.host.Valid() && manager.activity.Valid() && manager.activity.hooks == []
    modifies session.host, manager.activity, manager.activity.aggregate, manager.activity.trackers
    ensures session.host.Valid() && session.host.Mine() == old(session.host.Mine())
    ensures session.host.own == old(session.host.own)
    ensures !reason.NotServing? && IsReason(reason, timeout)
    ensures reason.watch.Some? ==>
      var w := reason.watch.value; manager.activity.hooks == HooksBy(w.before, w.sleeps, w.slept)
  {
    session.host.Yield();
    reason := Ended(None);
    if timeout.Some? {
      ghost var w := WatchForwards(manager.activity, timeout.value);
      reason := Ended(Some(w));
    }
  }

  /** All is started, nothing but successes holds transports, and no hook has come yet. */
  ghost predicate IsUp(manager: TunnelManager)
    reads manager, manager.activity, manager.activity.aggregate, manager.activity.trackers
  {
    && manager.Valid() && manager.closed + Held(manager.runtimes) == manager.started
    && manager.activity.Valid() && manager.activity.hooks == [] && manager.activity.trackers == []
  }

  /** The start: its verdict, or None if it raised. */
  method StartNodes(job: Job, now: real) returns (failed: Option<bool>, manager: TunnelManager)
    requires IsJob(job)
    ensures fresh(manager) && fresh(manager.activity) && fresh(manager.activity.aggregate)
    ensures failed.None? <==> IsFaulty(job)
    ensures failed.None? ==>
      && manager.Valid() && manager.Snapshot() == AtStop(job.course)
      && manager.config == job.course.config && manager.plans == job.course.plans
    ensures failed.Some? ==> IsUp(manager) && Verdict(job) == if failed.value then RequiredFailed else Success
  {
    manager := new TunnelManager(job.course.config, job.course.plans, now);
    var result := manager.StartAllAndBuildOutput(job.course.schedule);
    failed := if result.None? then None else Some(result.value.RequiredFailure?);
  }

  /** A required node failed: stop what there is, tell the parent, and give the session back. */
  method FinishFailed(session: SessionDir, pipe: Pipe, payloads: Payloads, manager: TunnelManager)
    returns (outcome: Outcome, ghost open: Option<multiset<Resource>>)
    requires IsOwn(session, Serving) && pipe.sent == []
    requires IsUp(manager)
    modifies session.host, pipe, manager, manager.activity, manager.activity.aggregate
    ensures session.host.Valid() && Tells(payloads, pipe.sent, RequiredFailed, outcome)
    ensures outcome == Escaped || outcome == Exited(2)
    ensures HasEnded(session, outcome, open, multiset{}, old(session.host.own))
  {
    manager.StopAll();
    var told := pipe.Answer(Frame(payloads, RequiredFailed));
    if !told {
      return Escaped, None;
    }
    ghost var left := CleanUp(session, manager);
    return Exited(2), Some(left);
  }

  /** The nodes are up: tell the parent, serve until the stop, close everything, and give the session back. */
  method FinishServed(
      session: SessionDir, pipe: Pipe, payloads: Payloads, manager: TunnelManager, timeout: Option<nat>)
    returns (outcome: Outcome, ghost open: Option<multiset<Resource>>, ghost reason: Reason)
    requires IsOwn(session, Serving) && pipe.sent == []
    requires IsUp(manager)
    modifies session.host, pipe, manager, manager.activity, manager.activity.aggregate
    ensures session.host.Valid() && Tells(payloads, pipe.sent, Success, outcome)
    ensures outcome == Escaped || outcome == Exited(0)
    ensures HasEnded(session, outcome, open, multiset{}, old(session.host.own))
    ensures IsReason(reason, timeout) && (outcome.Exited? ==> !reason.NotServing?)
  {
    reason := NotServing;
    var told := pipe.Answer(Frame(payloads, Success));
    if !told {
      return Escaped, None, reason;
    }
    reason := AwaitStop(session, manager, timeout);
    manager.StopAll();
    ghost var left := CleanUp(session, manager);
    return Exited(0), Some(left), reason;
  }

  /** After a start without a fault. */
  method Finish(
      session: SessionDir, pipe: Pipe, payloads: Payloads, manager: TunnelManager, failed: bool, timeout: Option<nat>)
    returns (outcome: Outcome, ghost open: Option<multiset<Resource>>, ghost reason: Reason)
    requires IsOwn(session, Serving) && pipe.sent == []
    requires IsUp(manager)
    modifies session.host, pipe, manager, manager.activity, manager.activity.aggregate
    ensures session.host.Valid() && Tells(payloads, pipe.sent, if failed then RequiredFailed else Success, outcome)
    ensures HasEnded(session, outcome, open, multiset{}, old(session.host.own))
    ensures IsReason(reason, timeout) && (outcome == Exited(0) ==> !reason.NotServing?)
  {
    if failed {
      reason := NotServing;
      outcome, open := FinishFailed(session, pipe, payloads, manager);
    } else {
      outcome, open, reason := FinishServed(session, pipe, payloads, manager, timeout);
    }
  }

  /** `_run` on a readable schema. */
  method Serve(session: SessionDir, pipe: Pipe, payloads: Payloads, job: Job)
    returns (outcome: Outcome, ghost open: Option<multiset<Resource>>, ghost reason: Reason)
    requires IsOwn(session, Serving) && pipe.sent == [] && IsJob(job)
    modifies session.host, pipe
    ensures session.host.Valid() && Tells(payloads, pipe.sent, Verdict(job), outcome)
    ensures HasEnded(session, outcome, open, LeftBehind(job), old(session.host.own))
    ensures IsReason(reason, job.timeout) && (outcome == Exited(0) ==> !reason.NotServing?)
  {
    var now: real := *;
    var failed, manager := StartNodes(job, now);
    if failed.None? {
      StopLate(manager, job);
      outcome, open := HandleFault(session, pipe, payloads, manager);
      reason := NotServing;
    } else {
      outcome, open, reason := Finish(session, pipe, payloads, manager, failed.value, job.timeout);
    }
  }

  /** `_run` */
  method RunJob(session: SessionDir, pipe: Pipe, payloads: Payloads, job: Option<Job>)
    returns (outcome: Outcome, ghost open: Option<multiset<Resource>>, ghost reason: Reason)
    requires IsOwn(session, Serving) && pipe.sent == [] && (job.Some? ==> IsJob(job.value))
    modifies session.host, pipe
    ensures session.host.Valid() && Tells(payloads, pipe.sent, KindFor(job), outcome)
    ensures HasEnded(session, outcome, open, LeftBy(job), old(session.host.own))
    ensures IsReason(reason, TimeoutOf(job)) && (outcome == Exited(0) ==> !reason.NotServing?)
  {
    session.host.Yield();
    if job.None? {
      reason := NotServing;
      outcome, open := RefuseSchema(session, pipe, payloads);
    } else {
      outcome, open, reason := Serve(session, pipe, payloads, job.value);
    }
  }

  /** daemon.pid could not be written: the session is given back before the parent is told. */
  method AbandonSession(session: SessionDir, pipe: Pipe, payloads: Payloads)
    returns (outcome: Outcome, ghost open: Option<multiset<Resource>>)
    requires IsOwn(session, Stage.Made) && pipe.sent == []
    modifies session.host, pipe
    ensures session.host.Valid() && Tells(payloads, pipe.sent, DaemonFailed, outcome)
    ensures open == Some(multiset{}) && session.host.Mine().stage.Finished?
    ensures session.host.own == old(session.host.own) + CleanupSteps(session.host.me)
  {
    ghost var left := CleanUp(session, null);
    var escaped := pipe.ReportFailure(payloads);
    return if escaped then Escaped else Exited(4), Some(left);
  }

  lemma StepsAdd(own: seq<Step>, me: Pid)
    ensures own + [Step.WriteIdentity(me)] + CleanupSteps(me) == own + LifeSteps(me, true)
  {
  }

  /**
   From the won lock to the end. On every regular exit the session is given back exactly once, and
   unless the start met a fault every transport was closed before.
   */
  method RunSession(session: SessionDir, pipe: Pipe, payloads: Payloads, job: Option<Job>)
    returns (
      outcome: Outcome, ghost open: Option<multiset<Resource>>, ghost kind: Kind, ghost reason: Reason,
      ghost identified: bool)
    requires IsOwn(session, Stage.Made) && pipe.sent == [] && (job.Some? ==> IsJob(job.value))
    modifies session.host, pipe
    ensures session.host.Valid() && Tells(payloads, pipe.sent, kind, outcome)
    ensures identified == old(session.host.state.slot).Directory?
    ensures kind == if identified then KindFor(job) else DaemonFailed
    ensures outcome.Exited? ==>
      && open == Some(if identified then LeftBy(job) else multiset{})
      && session.host.Mine().stage.Finished?
      && session.host.own == old(session.host.own) + LifeSteps(session.host.me, identified)
    ensures IsReason(reason, TimeoutOf(job)) && (outcome == Exited(0) ==> !reason.NotServing?)
  {
    identified := session.host.state.slot.Directory?;
    kind := if identified then KindFor(job) else DaemonFailed;
    var written := session.WriteIdentity();
    if !written {
      reason := NotServing;
      outcome, open := AbandonSession(session, pipe, payloads);
      return;
    }
    outcome, open, reason := RunJob(session, pipe, payloads, job);
    StepsAdd(old(session.host.own), session.host.me);
  }

  /** SessionDir.create, and what is said where it fails. */
  method StartSession(host: Host, pipe: Pipe, payloads: Payloads, supplied: Option<string>)
    returns (outcome: Outcome, ghost kind: Kind, session: SessionDir?)
    requires host.Valid() && host.Mine().stage.Idle? && pipe.sent == []
    requires supplied.None? <==> host.generatedBy == Some(host.me)
    modifies host, pipe
    ensures host.Valid()
    ensures session != null ==>
      && fresh(session) && session.host == host && IsOwn(session, Stage.Made) && pipe.sent == []
      && host.own == old(host.own) + CreateSteps(host.me)
    ensures session == null ==>
      && Tells(payloads, pipe.sent, kind, outcome) && (kind.Active? || kind.DaemonFailed?)
      && (forall i | i in host.state.holder :: host.state.holder[i] != host.me)
      && (kind.Active? ==> host.own == old(host.own) + [Open(host.me), Flock(host.me)])
  {
    var created, steps := SessionDir.Create(host, supplied);
    if created.Ok? {
      return Escaped, DaemonFailed, created.value;
    }
    session := null;
    outcome, kind := Reject(pipe, payloads, created.error);
  }

  /**
   The worker. Whatever other processes, the pipe and the nodes do: the parent is sent one message or
   a part of it, and a worker that had locked the session gives it back exactly once on every regular
   exit. One that found it locked has only opened and tried the lock file, and one that did not get or
   keep the lock holds none. Without a signal, a daemon stops only after a whole timeout without use.
   */
  method RunWorker(
      host: Host, pipe: Pipe, payloads: Payloads, supplied: Option<string>, job: Option<Job>)
    returns (
      outcome: Outcome, ghost open: Option<multiset<Resource>>, ghost kind: Kind, ghost reason: Reason,
      session: SessionDir?, ghost identified: bool)
    requires host.Valid() && host.Mine().stage.Idle? && host.own == [] && pipe.sent == []
    requires supplied.None? <==> host.generatedBy == Some(host.me)
    requires job.Some? ==> IsJob(job.value)
    modifies host, pipe
    ensures host.Valid() && Tells(payloads, pipe.sent, kind, outcome)
    ensures session != null && outcome.Exited? ==>
      && open == Some(if identified then LeftBy(job) else multiset{}) && host.Mine().stage.Finished?
      && host.own == CreateSteps(host.me) + LifeSteps(host.me, identified)
    ensures kind.Active? ==> session == null && host.own == [Open(host.me), Flock(host.me)]
    ensures session == null ==>
      && !kind.Success? && !kind.RequiredFailed?
      && (forall i | i in host.state.holder :: host.state.holder[i] != host.me)
    ensures IsReason(reason, TimeoutOf(job)) && (outcome == Exited(0) ==> !reason.NotServing?)
  {
    open, reason, identified := None, NotServing, false;
    outcome, kind, session := StartSession(host, pipe, payloads, supplied);
    if session != null {
      outcome, open, kind, reason, identified := RunSession(session, pipe, payloads, job);
    }
  }
}
