/**
 cli.py: what `tunstrap start` makes of the message that it reads, and when its exit code is the
 worker's. It prints the message as JSON, or the session's environment as shell exports.
 */
module StartCommand {
  import opened Wrappers
  import opened Messages
  import opened SessionProtocol
  import opened SessionEnv
  import opened EnvRender
  import Fetcher
  import RunCommand
  import ShellExports
  import StopCommand
  import TunnelManager
  import Worker

  /** --output */
  datatype Output = AsJson | AsEnv

  /** What the start writes to its standard output. */
  datatype Printed = Payload(kind: Kind) | Exports(text: string) | Unexpected

  /** A rendering that fails counts as a daemon error, although the daemon serves. */
  function StartExit(kind: Kind, output: Output, connections: seq<(string, TunnelManager.NodeOutput)>): int {
    if kind.Success? && output.AsEnv? && !Renders(connections) then Worker.ExitCode(DaemonFailed)
    else Worker.ExitCode(kind)
  }

  /**
   On a regular exit of the worker the parent's exit code is the worker's, unless the worker refused
   the start and the pipe took less than its whole message, or the start succeeded and its environment
   is wanted and does not render.
   */
  lemma ParentAgreesExactlyIf(
      payloads: Worker.Payloads, sent: string, kind: Kind, outcome: Worker.Outcome,
      output: Output, connections: seq<(string, TunnelManager.NodeOutput)>)
    requires Worker.Tells(payloads, sent, kind, outcome) && outcome.Exited?
    ensures StartExit(Worker.KindRead(sent), output, connections) == outcome.code <==>
      && !(kind.Active? && |sent| < |Print(Messages.Message(Active, payloads(Active)))|)
      && !(kind.Success? && output.AsEnv? && !Renders(connections))
  {
    Worker.KindIsReadExactlyIf(payloads, sent, kind, outcome);
  }

  /**
   `start_command` from the message on, with the report that a success carries. The daemon is not
   touched: if it serves, it goes on serving, whatever the exit code is.
   */
  method Start(message: Message, output: Output, session: StopCommand.Session)
    returns (exit: int, printed: Printed)
    requires session.Valid() && session.own == []
    modifies session
    ensures session.Valid() && session.own == []
    ensures old(StageOf(session.state, session.daemon).Serving?) ==>
      StopCommand.IsLeftBehind(session.state, session.daemon)
    ensures match message
      case Failed(kind) =>
        && printed == Payload(kind)
        && exit == (match kind case Success => 0 case RequiredFailed => 2 case Active => 3 case DaemonFailed => 4)
      case Succeeded(_, _, connections) =>
        && exit == (if output.AsEnv? && !Renders(connections) then 4 else 0)
        && match printed
           case Payload(kind) => output.AsJson? && kind.Success?
           case Exports(text) =>
             output.AsEnv? && Renders(connections)
             && ShellExports.ReadExports(text) == Some(Rendered(message.sessionDir, message.pid, connections[0].1))
           case Unexpected => output.AsEnv? && !Renders(connections)
  {
    session.Others();
    match message {
      case Failed(kind) => return Worker.ExitCode(kind), Payload(kind);
      case Succeeded(sessionDir, pid, connections) =>
        if output.AsJson? {
          return 0, Payload(Success);
        }
        var env := RenderEnv(sessionDir, pid, connections);
        if env.Err? {
          return 4, Unexpected;
        }
        ShellExports.RenderedExportsReadBack(sessionDir, pid, connections[0].1);
        return 0, Exports(ShellExports.FormatExports(env.value));
    }
  }

  lemma EnvExits(connections: seq<(string, TunnelManager.NodeOutput)>)
    ensures StartExit(Success, AsEnv, connections) == (if Renders(connections) then 0 else 4)
    ensures StartExit(Success, AsJson, connections) == 0
  {
  }

  /** With a command line, the exit code of a start that succeeds is the worker's exactly if its names stay apart. */
  lemma CommandLineAgreesExactlyIf(message: Message, job: Worker.Job)
    requires IsCommandLineJob(job) && IsMessageOf(message, job) && message.Succeeded?
    ensures StartExit(Success, AsEnv, message.connections) == 0 <==> IsUnambiguous(job.course.plans[0].node)
    ensures StartExit(Success, AsJson, message.connections) == 0
  {
    CommandLineRendersExactlyIf(message, job);
    EnvExits(message.connections);
  }

  /** With JSON on stdin, exactly if one node is up, its names stay apart, and what it serves is on disk. */
  lemma AnyInputAgreesExactlyIf(message: Message, job: Worker.Job)
    requires Worker.IsJob(job) && IsMessageOf(message, job) && message.Succeeded?
    ensures StartExit(Success, AsEnv, message.connections) == 0 <==>
      exists i :: 0 <= i < |job.course.plans| && IsOneCleanNode(job.course.config, job.course.plans, i)
  {
    StartRendersExactlyIf(job.course.config, job.course.plans);
    EnvExits(message.connections);
  }

  /** A start with two handles of one key: the worker serves and ends with 0, the parent ends with 4. */
  lemma CollidingHandlesDisagree(digest: Fetcher.Bytes -> string, data: string, payloads: Worker.Payloads)
    returns (job: Worker.Job, message: Message)
    ensures IsCommandLineJob(job) && job.course.plans == [RunCommand.TwoTargets()]
    ensures IsMessageOf(message, job) && message.Succeeded?
    ensures Worker.Tells(payloads, Worker.Frame(payloads, Success), Success, Worker.Exited(0))
    ensures StartExit(Worker.KindRead(Worker.Frame(payloads, Success)), AsEnv, message.connections) == 4
  {
    job := RunCommand.CollidingHandlesStart(digest, data);
    message := Succeeded(data, 0, ReportOf(job).connections);
    CommandLineAgreesExactlyIf(message, job);
    Worker.KindIsReadExactlyIf(payloads, Worker.Frame(payloads, Success), Success, Worker.Exited(0));
  }
}
