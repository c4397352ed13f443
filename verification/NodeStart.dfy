/**
 manager.py: `_start_one` in one go, with the real loops of ssh.py, fetcher.py and kube.py. It ends
 in the very outcome towards which the suspended coroutine is headed.
 */
module NodeStart {
  import opened Wrappers
  import opened Nodes
  import Forwards
  import Fetcher
  import KubeTargets

  lemma ForwardErrorIsFirst(plan: Plan, k: nat, error: Forwards.StartupError, mine: seq<string>)
    requires IsWellFormed(plan)
    requires Forwards.FailsAt(plan.node.handles, plan.fate.attempts, k, error, mine)
    ensures k == FirstFailure(plan.fate.attempts) && ForwardError(plan, k) == ForwardFailed(error)
  {
  }

  /** Opens the forwards; on an error the connection is closed and so is every listener on it. */
  method ForwardOrClose(conn: Forwards.Connection, plan: Plan)
    returns (error: Option<NodeError>, listeners: seq<string>)
    requires IsWellFormed(plan) && conn.started == [] && conn.closed == [] && !conn.isClosed
    modifies conn
    ensures error.None? <==> Forwards.AllAccepting(plan.fate.attempts)
    ensures error.None? ==>
      conn.started == plan.node.handles && listeners == plan.node.handles && conn.closed == [] && !conn.isClosed
    ensures error.Some? ==>
      && error == Some(ForwardError(plan, FirstFailure(plan.fate.attempts)))
      && conn.closed == conn.started && conn.isClosed
  {
    var forwards;
    forwards, listeners := conn.OpenLocalForwards(plan.node.handles, plan.fate.attempts);
    if forwards.Err? {
      ghost var k, mine :| Forwards.FailsAt(plan.node.handles, plan.fate.attempts, k, forwards.error, mine)
                           && conn.started == mine && conn.closed == mine;
      ForwardErrorIsFirst(plan, k, forwards.error, mine);
      conn.CloseTransport([], true);
      return Some(ForwardFailed(forwards.error)), [];
    }
    error := None;
  }

  /** The listeners that were opened and closed while the files and kube targets were served. */
  ghost predicate HasServed(
      plan: Plan, runtime: Runtime,
      started0: seq<string>, started: seq<string>, closed0: seq<string>, closed: seq<string>)
    requires IsWellFormed(plan) && (!runtime.success ==> runtime.error.Some?)
  {
    && (runtime.success || runtime.error.value.RequiredKubeFailed? ==>
          && KubeReturns(plan)
          && started == started0 + KubeAccount(plan).listening && closed == closed0 + KubeAccount(plan).closed)
    && (!runtime.success && runtime.error.value.RequiredFilesFailed? ==> started == started0 && closed == closed0)
    && (!runtime.success ==> !runtime.error.value.ForwardFailed? && !runtime.error.value.ConnectFailed?)
  }

  /** The files and kube targets of a node whose forwards are up, up to the first error. */
  method FetchAndServe(config: Config, conn: Forwards.Connection, plan: Plan)
    returns (runtime: Runtime)
    requires IsWellFormed(plan) && plan.fate.connect.None? && Forwards.AllAccepting(plan.fate.attempts)
    modifies conn
    ensures runtime == Outcome(config, plan)
    ensures conn.isClosed == old(conn.isClosed)
    ensures HasServed(plan, runtime, old(conn.started), conn.started, old(conn.closed), conn.closed)
  {
    var files, failures :=
      Fetcher.FetchFiles(plan.node.files, plan.fate.channel, plan.fate.fileAnswers, config.digest);
    if failures != [] {
      return FailedWith(config, plan, RequiredFilesFailed(failures));
    }
    var served := KubeTargets.RunKubeTargets(conn, plan.node.targets, plan.fate.kubeAnswers);
    if served.Err? {
      return FailedWith(config, plan, KubeRaised);
    }
    var ports := Ports(plan);
    var outputs := Placed(config, plan.node.name, served.value.outputs);
    if served.value.failures != [] {
      return Runtime(plan.node.name, false, ports, files, outputs, served.value.notices, [],
                     Some(RequiredKubeFailed(served.value.failures)));
    }
    runtime := Runtime(plan.node.name, true, ports, files, outputs, served.value.notices,
                       Transport(plan.node, |plan.node.handles|), None);
  }

  /** The same, and after an error the connection is closed with its forward listeners. */
  method FetchAndServeOrClose(config: Config, conn: Forwards.Connection, plan: Plan, listeners: seq<string>)
    returns (runtime: Runtime, ghost closed: seq<string>)
    requires IsWellFormed(plan) && plan.fate.connect.None? && Forwards.AllAccepting(plan.fate.attempts)
    requires conn.started == plan.node.handles == listeners && conn.closed == [] && !conn.isClosed
    modifies conn
    ensures runtime == Outcome(config, plan) && conn.isClosed == !runtime.success
    ensures HasServed(plan, runtime, plan.node.handles, conn.started, [], closed)
    ensures conn.closed == if runtime.success then closed else closed + plan.node.handles
  {
    runtime := FetchAndServe(config, conn, plan);
    closed := conn.closed;
    if !runtime.success {
      conn.CloseTransport(listeners, true);
    }
  }

  /** The listeners of a connection whose node's start is over, for every outcome but an uncaught kube error. */
  ghost predicate HasStarted(plan: Plan, runtime: Runtime, started: seq<string>, closed: seq<string>)
    requires IsWellFormed(plan) && (!runtime.success ==> runtime.error.Some?)
  {
    && (runtime.success ==>
          && KubeReturns(plan)
          && started == plan.node.handles + KubeAccount(plan).listening && closed == KubeAccount(plan).closed)
    && (!runtime.success && (runtime.error.value.ForwardFailed? || runtime.error.value.RequiredFilesFailed?) ==>
          closed == started)
    && (!runtime.success && runtime.error.value.RequiredKubeFailed? ==>
          && KubeReturns(plan)
          && started == plan.node.handles + KubeAccount(plan).listening
          && closed == KubeAccount(plan).closed + plan.node.handles)
  }

  lemma ServedHasStarted(plan: Plan, runtime: Runtime, started: seq<string>, closed: seq<string>)
    requires IsWellFormed(plan) && (!runtime.success ==> runtime.error.Some?)
    requires HasServed(plan, runtime, plan.node.handles, started, [], closed)
    ensures HasStarted(plan, runtime, started, if runtime.success then closed else closed + plan.node.handles)
  {
  }

  /**
   One node from connection to runtime. The runtime is the outcome of the node's fate; a successful
   node's connection is open with its forwards and one listener per kube output, and a failed
   node's connection, if it ever had one, is closed with every forward listener closed once; kube
   listeners that are still open then go with their connection.
   */
  method StartOne(config: Config, plan: Plan) returns (runtime: Runtime, conn: Option<Forwards.Connection>)
    requires IsWellFormed(plan)
    ensures runtime == Outcome(config, plan)
    ensures conn.None? <==> plan.fate.connect.Some?
    ensures conn.Some? ==> fresh(conn.value) && conn.value.isClosed == !runtime.success
    ensures conn.Some? ==> HasStarted(plan, runtime, conn.value.started, conn.value.closed)
  {
    if plan.fate.connect.Some? {
      return FailedWith(config, plan, ConnectFailed(plan.fate.connect.value)), None;
    }
    var c := new Forwards.Connection();
    var error, listeners := ForwardOrClose(c, plan);
    if error.Some? {
      return FailedWith(config, plan, error.value), Some(c);
    }
    ghost var closed;
    runtime, closed := FetchAndServeOrClose(config, c, plan, listeners);
    ServedHasStarted(plan, runtime, c.started, closed);
    conn := Some(c);
  }
}
