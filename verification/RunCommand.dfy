/**
 cli.py: `tunstrap run`, which starts a daemon for one node, launches a command in its environment,
 and tears the daemon down.
 */
module RunCommand {
  import opened Wrappers
  import opened SessionProtocol
  import opened EnvRender
  import opened Messages
  import opened SessionEnv
  import opened StopCommand
  import Forwards
  import Fetcher
  import Faults
  import Manager
  import Nodes
  import StopEscalation
  import TunnelManager
  import Worker

  /** How the command ends: with an exit code, or with an error that nothing catches. */
  datatype Exit = Code(code: int) | Uncaught

  /** What launching the child came to. */
  datatype Child = Launched(code: int) | NotLaunched

  /** A run that was not torn down: it has touched nothing, and a daemon that serves goes on. */
  twostate predicate HasLeft(session: Session)
    reads session
  {
    && session.own == []
    && (old(StageOf(session.state, session.daemon).Serving?) ==> IsLeftBehind(session.state, session.daemon))
  }

  /**
   A teardown that found this session: it stops the process whose pid was there, and no other one. What
   it says to be stopped is gone, and a serving daemon with another pid goes on, without its data.
   */
  twostate predicate HasTornDown(
      session: Session, foreign: Option<string>, refused: bool, found: State, new stop: StopEscalation.Stop?)
    reads session, stop
  {
    && ProcessOf(found, session.daemon) == old(ProcessOf(session.state, session.daemon))
    && ReadIdentity(found, foreign) == (if stop == null then None else Some(stop.pid))
    && (old(StageOf(session.state, session.daemon).Serving?) && (stop == null || stop.pid != session.daemon) ==>
          IsLeftBehind(session.state, session.daemon))
    && (!refused ==> session.own == [StopCleanup] && !session.state.slot.Directory?)
    && (!refused && stop != null && stop.pid == session.daemon && SaidStopped(stop) ==>
          IsGone(session.state, session.daemon))
  }

  /** What ends the command before its child is launched: a failed start, or an environment that does not render. */
  method PrepareChild(message: Message, ghost job: Worker.Job) returns (failure: Option<Exit>)
    requires IsCommandLineJob(job) && IsMessageOf(message, job)
    ensures failure.None? <==> message.Succeeded? && IsUnambiguous(job.course.plans[0].node)
    ensures failure.Some? ==>
      failure.value == if message.Failed? then Code(Worker.ExitCode(message.kind)) else Uncaught
  {
    if message.Failed? {
      return Some(Code(Worker.ExitCode(message.kind)));
    }
    CommandLineRendersExactlyIf(message, job);
    var env := RenderEnv(message.sessionDir, message.pid, message.connections);
    failure := if env.Err? then Some(Uncaught) else None;
  }

  /** The child, and then the teardown. */
  method LaunchAndTearDown(session: Session, foreign: Option<string>, grace: int, now: real)
    returns (refused: bool, ghost found: State, stop: StopEscalation.Stop?)
    requires session.Valid() && session.own == []
    modifies session
    ensures session.Valid() && (stop != null ==> fresh(stop))
    ensures HasTornDown(session, foreign, refused, found, stop)
  {
    session.Others();
    found := session.state;
    refused, stop := session.TearDown(foreign, grace, now);
  }

  /**
   `run_command` after the daemon was spawned, for the job of a command line. The environment is
   rendered before the try that guarantees the teardown: the teardown begins exactly if the start
   succeeded and the names on the command line stay apart as keys. Otherwise a daemon that was started
   is left behind, serving.
   */
  method Run(
      message: Message, session: Session, foreign: Option<string>, grace: int, now: real, child: Child,
      ghost job: Worker.Job)
    returns (exit: Exit, ghost tornDown: bool, ghost found: State, stop: StopEscalation.Stop?)
    requires session.Valid() && session.own == []
    requires IsCommandLineJob(job) && IsMessageOf(message, job)
    modifies session
    ensures session.Valid() && (stop != null ==> fresh(stop))
    ensures tornDown <==> message.Succeeded? && IsUnambiguous(job.course.plans[0].node)
    ensures if tornDown then HasTornDown(session, foreign, exit.Uncaught?, found, stop)
            else HasLeft(session) && stop == null
    ensures match message
      case Failed(kind) =>
        exit == Code(match kind case Success => 0 case RequiredFailed => 2 case Active => 3 case DaemonFailed => 4)
      case Succeeded(_, _, _) =>
        exit == Uncaught || (tornDown && exit == if child.Launched? then Code(child.code) else Code(127))
  {
    session.Others();
    found, tornDown, stop := session.state, false, null;
    var failure := PrepareChild(message, job);
    if failure.Some? {
      return failure.value, tornDown, found, stop;
    }
    tornDown := true;
    var refused;
    refused, found, stop := LaunchAndTearDown(session, foreign, grace, now);
    exit := if refused then Uncaught else Code(if child.Launched? then child.code else 127);
  }

  // ---------------------------------------------------------------- a daemon that is left behind

  function TwoTargets(): Nodes.Plan {
    Nodes.Plan(
      Nodes.Node("node", true, ["a-b", "a_b"], [], []),
      Nodes.Fate(None, [Forwards.Accepting(1), Forwards.Accepting(2)], Fetcher.Serves(None), [], []))
  }

  /** One node has a schedule that runs it to its end. */
  lemma OneNodeFinishes(config: Nodes.Config, plan: Nodes.Plan) returns (c: Faults.Course)
    requires Nodes.IsWellFormed(plan)
    ensures c.config == config && c.plans == [plan] && Faults.IsCourse(c)
    ensures |Faults.AtStop(c).tasks| == 1 && Faults.AtStop(c).tasks[0].Done?
  {
    var plans := [plan];
    Manager.InitialConserves(config, plans);
    var schedule := Manager.EveryStartCanFinish(config, plans, Manager.Initial(plans));
    c := Faults.Course(config, plans, schedule, []);
  }

  lemma NothingRequiredFails(config: Nodes.Config, plan: Nodes.Plan)
    requires Nodes.IsWellFormed(plan) && Nodes.ErrorOf(config, plan).None?
    ensures TunnelManager.Report([plan], Manager.Outcomes(config, [plan])).Started?
  {
    TunnelManager.StartGuarantee(config, [plan]);
  }

  lemma DoneIsJob(c: Faults.Course)
    requires Faults.IsCourse(c) && |Faults.AtStop(c).tasks| == 1 && Faults.AtStop(c).tasks[0].Done?
    ensures Worker.IsJob(Worker.Job(c, None)) && !Worker.IsFaulty(Worker.Job(c, None))
  {
  }

  /** Any node that can start gives a job that does. */
  lemma StartableNodeStarts(config: Nodes.Config, plan: Nodes.Plan) returns (job: Worker.Job)
    requires Nodes.IsWellFormed(plan) && Nodes.ErrorOf(config, plan).None? && config.data.Some? && plan.node.required
    requires forall i | 0 <= i < |plan.node.targets| :: plan.node.targets[i].required
    ensures IsCommandLineJob(job) && job.course.plans == [plan] && job.course.config == config
    ensures !Worker.IsFaulty(job) && ReportOf(job).Started?
  {
    var course := OneNodeFinishes(config, plan);
    job := Worker.Job(course, None);
    DoneIsJob(course);
    NothingRequiredFails(config, plan);
  }

  lemma TwoTargetsStart(config: Nodes.Config)
    ensures Nodes.IsWellFormed(TwoTargets()) && Nodes.ErrorOf(config, TwoTargets()).None?
  {
  }

  lemma TwoTargetsCollide()
    ensures !IsUnambiguous(TwoTargets().node)
  {
    var handles := TwoTargets().node.handles;
    assert SameKey(handles[0], handles[1]);
  }

  /** Two handles with one key: the start succeeds, the environment does not render, the daemon stays. */
  lemma CollidingHandlesStart(digest: Fetcher.Bytes -> string, data: string) returns (job: Worker.Job)
    ensures IsCommandLineJob(job) && job.course.plans == [TwoTargets()]
    ensures !Worker.IsFaulty(job) && ReportOf(job).Started? && !IsUnambiguous(TwoTargets().node)
  {
    TwoTargetsStart(Nodes.Config(digest, Some(data)));
    TwoTargetsCollide();
    job := StartableNodeStarts(Nodes.Config(digest, Some(data)), TwoTargets());
  }
}
