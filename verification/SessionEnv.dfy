/**
 cli.py: when the environment of a session that has started can be rendered, in terms of what was
 asked for. All that the command line asks for is required, and where an environment is wanted,
 kubeconfigs are always written to disk; JSON on stdin may ask for anything.
 */
module SessionEnv {
  import opened Wrappers
  import opened TunnelManager
  import opened EnvRender
  import opened Nodes
  import opened Manager
  import KubeTargets
  import Messages
  import Schemas
  import Worker

  /** The message that the parent read; a success carries the report. */
  datatype Message =
    | Succeeded(sessionDir: string, pid: nat, connections: seq<(string, NodeOutput)>)
    | Failed(kind: Messages.Kind)

  ghost function ReportOf(job: Worker.Job): StartResult
    requires Worker.IsJob(job)
  {
    Report(job.course.plans, Outcomes(job.course.config, job.course.plans))
  }

  ghost predicate IsMessageOf(message: Message, job: Worker.Job)
    requires Worker.IsJob(job)
  {
    match message
    case Failed(kind) => !kind.Success?
    case Succeeded(_, _, connections) =>
      !Worker.IsFaulty(job) && ReportOf(job).Started? && connections == ReportOf(job).connections
  }

  // ---------------------------------------------------------------- names

  /** No two names, of ports or of kubeconfigs, are written alike in variables. */
  predicate NamesStayApart(handles: seq<string>, names: seq<string>) {
    && (forall i, j | 0 <= i < j < |handles| :: !SameKey(handles[i], handles[j]))
    && (forall i, j | 0 <= i < j < |names| :: !SameKey(names[i], names[j]))
    && (forall i, j | 0 <= i < |handles| && 0 <= j < |names| :: !SameKey(handles[i], names[j]))
  }

  /** The output has these handles and kubeconfigs, in order. */
  ghost predicate Mirrors(handles: seq<string>, names: seq<string>, output: NodeOutput) {
    && |output.ports| == |handles|
    && (forall i | 0 <= i < |handles| :: output.ports[i].0 == handles[i])
    && |output.targets| == |names|
    && (forall i | 0 <= i < |names| :: output.targets[i].0 == names[i])
  }

  /** So such an output renders exactly if the names stay apart and all kubeconfigs are on disk. */
  lemma RendersExactlyIf(handles: seq<string>, names: seq<string>, output: NodeOutput)
    requires Mirrors(handles, names, output)
    ensures IsRenderable(output) <==> NamesStayApart(handles, names) && AllPlaced(output.targets)
  {
    if IsRenderable(output) {
      forall i, j | 0 <= i < j < |handles|
        ensures !SameKey(handles[i], handles[j])
      {
        assert !SameKey(output.ports[i].0, output.ports[j].0);
      }
      forall i, j | 0 <= i < j < |names|
        ensures !SameKey(names[i], names[j])
      {
        assert !SameKey(output.targets[i].0, output.targets[j].0);
      }
      forall i, j | 0 <= i < |handles| && 0 <= j < |names|
        ensures !SameKey(handles[i], names[j])
      {
        assert !SameKey(output.ports[i].0, output.targets[j].0);
      }
    }
  }

  // ---------------------------------------------------------------- the output of a node

  function OutputOf(runtime: Runtime): NodeOutput {
    NodeOutput(runtime.ports, runtime.fetched, runtime.kubeOutputs)
  }

  /** The kube targets that got an output. */
  function ServedNames(plan: Plan): seq<string>
    requires IsWellFormed(plan) && KubeReturns(plan)
  {
    KubeTargets.NamesOf(KubeAccount(plan).outputs)
  }

  /** Nothing has a path before it is materialized. */
  lemma OutputsHaveNoPath(plan: Plan)
    requires IsWellFormed(plan) && KubeReturns(plan)
    ensures forall i | 0 <= i < |KubeAccount(plan).outputs| :: KubeAccount(plan).outputs[i].1.path.None?
  {
    forall i | 0 <= i < |KubeAccount(plan).outputs|
      ensures KubeAccount(plan).outputs[i].1.path.None?
    {
      KubeTargets.OutputsAgree(plan.node.targets, plan.fate.kubeAnswers, i);
    }
  }

  lemma PlacedExactlyIf(config: Config, plan: Plan)
    requires IsWellFormed(plan) && KubeReturns(plan)
    ensures var placed := Placed(config, plan.node.name, KubeAccount(plan).outputs);
      AllPlaced(placed) <==> config.data.Some? || ServedNames(plan) == []
  {
    OutputsHaveNoPath(plan);
    var outputs := KubeAccount(plan).outputs;
    if config.data.None? && outputs != [] {
      assert outputs[0].1.path.None?;
    }
  }

  lemma SuccessMirrors(config: Config, plan: Plan)
    requires IsWellFormed(plan) && ErrorOf(config, plan).None?
    ensures var output := OutputOf(Nodes.Succeeded(config, plan));
      && Mirrors(plan.node.handles, ServedNames(plan), output)
      && (AllPlaced(output.targets) <==> config.data.Some? || ServedNames(plan) == [])
  {
    PlacedExactlyIf(config, plan);
  }

  // ---------------------------------------------------------------- the one connection

  predicate OnlySuccess(runtimes: seq<Runtime>, i: nat)
    requires i < |runtimes|
  {
    forall j | 0 <= j < |runtimes| :: runtimes[j].success <==> j == i
  }

  lemma {:induction false} NoConnections(runtimes: seq<Runtime>)
    ensures Connections(runtimes) == [] <==> forall j | 0 <= j < |runtimes| :: !runtimes[j].success
  {
    if runtimes != [] {
      var k := |runtimes| - 1;
      NoConnections(runtimes[..k]);
      assert forall j | 0 <= j < k :: runtimes[..k][j] == runtimes[j];
    }
  }

  lemma {:induction false} OnlyConnection(runtimes: seq<Runtime>, i: nat)
    requires i < |runtimes| && OnlySuccess(runtimes, i)
    ensures Connections(runtimes) == [(runtimes[i].name, OutputOf(runtimes[i]))]
  {
    var k := |runtimes| - 1;
    assert forall j | 0 <= j < k :: runtimes[..k][j] == runtimes[j];
    if i == k {
      NoConnections(runtimes[..k]);
    } else {
      OnlyConnection(runtimes[..k], i);
    }
  }

  lemma {:induction false} OneConnection(runtimes: seq<Runtime>) returns (i: nat)
    requires |Connections(runtimes)| == 1
    ensures i < |runtimes| && OnlySuccess(runtimes, i)
  {
    var k := |runtimes| - 1;
    assert forall j | 0 <= j < k :: runtimes[..k][j] == runtimes[j];
    if runtimes[k].success {
      NoConnections(runtimes[..k]);
      i := k;
    } else {
      i := OneConnection(runtimes[..k]);
    }
  }

  /** Node i is the one that is up, its names stay apart, and what it serves is on disk. */
  ghost predicate IsOneCleanNode(config: Config, plans: seq<Plan>, i: nat)
    requires IsSchema(plans) && i < |plans|
  {
    && ErrorOf(config, plans[i]).None? && (forall j | 0 <= j < |plans| && j != i :: ErrorOf(config, plans[j]).Some?)
    && NamesStayApart(plans[i].node.handles, ServedNames(plans[i]))
    && (config.data.Some? || ServedNames(plans[i]) == [])
  }

  lemma OnlySuccessRenders(config: Config, plans: seq<Plan>, i: nat)
    requires IsSchema(plans) && i < |plans| && OnlySuccess(Outcomes(config, plans), i)
    ensures Renders(Connections(Outcomes(config, plans))) <==> IsOneCleanNode(config, plans, i)
  {
    var outcomes := Outcomes(config, plans);
    OnlyConnection(outcomes, i);
    assert outcomes[i].success && outcomes[i] == Outcome(config, plans[i]);
    SuccessMirrors(config, plans[i]);
    RendersExactlyIf(plans[i].node.handles, ServedNames(plans[i]), OutputOf(Nodes.Succeeded(config, plans[i])));
    forall j | 0 <= j < |plans| && j != i
      ensures ErrorOf(config, plans[j]).Some?
    {
      assert !outcomes[j].success;
    }
  }

  /**
   Whatever was asked for and whatever the nodes met: a start's environment renders exactly if one
   node is up, its handles and the kube targets it serves stay apart as keys, and its kubeconfigs are
   on disk, if it has any.
   */
  lemma StartRendersExactlyIf(config: Config, plans: seq<Plan>)
    requires IsSchema(plans)
    ensures Renders(Connections(Outcomes(config, plans))) <==>
      exists i :: 0 <= i < |plans| && IsOneCleanNode(config, plans, i)
  {
    var outcomes := Outcomes(config, plans);
    if Renders(Connections(outcomes)) {
      var i := OneConnection(outcomes);
      OnlySuccessRenders(config, plans, i);
    }
    if i :| 0 <= i < |plans| && IsOneCleanNode(config, plans, i) {
      forall j | 0 <= j < |plans|
        ensures outcomes[j].success <==> j == i
      {
        assert outcomes[j] == Outcome(config, plans[j]);
      }
      OnlySuccessRenders(config, plans, i);
    }
  }

  // ---------------------------------------------------------------- the command line

  /** A job as the command line makes it where an environment is wanted. */
  ghost predicate IsCommandLineJob(job: Worker.Job) {
    && Worker.IsJob(job) && job.course.config.data.Some?
    && |job.course.plans| == 1 && job.course.plans[0].node.required
    && (forall i | 0 <= i < |job.course.plans[0].node.targets| :: job.course.plans[0].node.targets[i].required)
  }

  /** The names that the caller gave on the command line stay apart. */
  predicate IsUnambiguous(node: Node) {
    NamesStayApart(node.handles, KubeTargets.TargetNames(node.targets))
  }

  lemma AllTargetsAreServed(targets: seq<KubeTargets.KubeTarget>, verdicts: seq<KubeTargets.Verdict>)
    requires |verdicts| == |targets| && KubeTargets.AccountOf(targets, verdicts).failures == []
    requires forall i | 0 <= i < |targets| :: targets[i].required
    ensures KubeTargets.NamesOf(KubeTargets.AccountOf(targets, verdicts).outputs) == KubeTargets.TargetNames(targets)
  {
    KubeTargets.AllRequiredAreServed(targets, verdicts);
  }

  lemma SuccessServesAll(config: Config, plan: Plan)
    requires IsWellFormed(plan) && ErrorOf(config, plan).None?
    requires forall i | 0 <= i < |plan.node.targets| :: plan.node.targets[i].required
    ensures ServedNames(plan) == KubeTargets.TargetNames(plan.node.targets)
  {
    AllTargetsAreServed(plan.node.targets, KubeTargets.Verdicts(plan.node.targets, plan.fate.kubeAnswers));
  }

  /** A start that succeeds has its required node up. */
  lemma RequiredNodeIsUp(config: Config, plans: seq<Plan>)
    requires IsSchema(plans) && |plans| == 1 && plans[0].node.required
    requires Report(plans, Outcomes(config, plans)).Started?
    ensures ErrorOf(config, plans[0]).None? && OnlySuccess(Outcomes(config, plans), 0)
  {
    StartGuarantee(config, plans);
    assert Outcomes(config, plans)[0] == Outcome(config, plans[0]);
  }

  /** On the command line, the environment of a start that succeeds renders exactly if its names stay apart. */
  lemma CommandLineRendersExactlyIf(message: Message, job: Worker.Job)
    requires IsCommandLineJob(job) && IsMessageOf(message, job) && message.Succeeded?
    ensures |message.connections| == 1
    ensures Renders(message.connections) <==> IsUnambiguous(job.course.plans[0].node)
  {
    var config, plans := job.course.config, job.course.plans;
    RequiredNodeIsUp(config, plans);
    OnlyConnection(Outcomes(config, plans), 0);
    OnlySuccessRenders(config, plans, 0);
    SuccessServesAll(config, plans[0]);
  }

  // ---------------------------------------------------------------- KUBECONFIG

  /** tunnel-data/ in a session directory. */
  function DataPath(sessionDir: string): string {
    if sessionDir == "/" then "/tunnel-data" else sessionDir + "/tunnel-data"
  }

  lemma MaterialPathColon(sessionDir: string, node: string, target: string)
    requires Schemas.IsAcceptedKey(node) && Schemas.IsAcceptedKey(target)
    ensures ':' in MaterialPath(DataPath(sessionDir), node, target) <==> ':' in sessionDir
  {
    Schemas.AcceptedKeysArePlain(node);
    Schemas.AcceptedKeysArePlain(target);
    var path := MaterialPath(DataPath(sessionDir), node, target);
    if ':' in sessionDir {
      var k :| 0 <= k < |sessionDir| && sessionDir[k] == ':';
      assert path[k] == ':';
    }
  }

  /**
   With names that the schema accepts and kubeconfigs in the session directory: KUBECONFIG splits back
   to their paths exactly if the session directory has no colon.
   */
  lemma KubeconfigIsReadExactlyIf(sessionDir: string, node: string, targets: Targets)
    requires targets != [] && Schemas.IsAcceptedKey(node)
    requires forall i | 0 <= i < |targets| ::
      && Schemas.IsAcceptedKey(targets[i].0)
      && targets[i].1.path == Some(MaterialPath(DataPath(sessionDir), node, targets[i].0))
    ensures Split(Join(Paths(targets), ':'), ':') == Paths(targets) <==> ':' !in sessionDir
  {
    KubeconfigSplitsBack(targets);
    forall i | 0 <= i < |targets|
      ensures ':' in targets[i].1.path.value <==> ':' in sessionDir
    {
      MaterialPathColon(sessionDir, node, targets[i].0);
    }
    assert ':' in targets[0].1.path.value <==> ':' in sessionDir;
  }
}
