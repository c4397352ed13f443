/**
 manager.py: what `start` reports from the runtimes it gathers, what that report guarantees to the
 caller, and the manager object itself.
 */
module TunnelManager {
  import opened Wrappers
  import opened Nodes
  import opened Manager
  import opened Activity
  import Fetcher
  import KubeTargets

  datatype NodeOutput = NodeOutput(
    ports: seq<(string, nat)>,
    files: map<string, Fetcher.FetchedFile>,
    targets: seq<(string, KubeTargets.KubeOutput)>)

  datatype Warning = NodeSkipped(node: string, error: NodeError) | KubeWarning(node: string, notice: KubeTargets.Notice)

  datatype StartResult =
    | Started(connections: seq<(string, NodeOutput)>, warnings: seq<Warning>)
    | RequiredFailure(failed: seq<(string, NodeError)>)

  // ---------------------------------------------------------------- the report

  /** The failed nodes that are required, or the ones that are not, in schema order. */
  function FailedNodes(plans: seq<Plan>, runtimes: seq<Runtime>, required: bool): seq<(string, NodeError)>
    requires |runtimes| == |plans|
  {
    if plans == [] then []
    else
      var k := |plans| - 1;
      FailedNodes(plans[..k], runtimes[..k], required)
      + if runtimes[k].error.Some? && !runtimes[k].success && plans[k].node.required == required
        then [(runtimes[k].name, runtimes[k].error.value)] else []
  }

  function Connections(runtimes: seq<Runtime>): seq<(string, NodeOutput)> {
    if runtimes == [] then []
    else
      var k := |runtimes| - 1;
      Connections(runtimes[..k])
      + if runtimes[k].success
        then [(runtimes[k].name, NodeOutput(runtimes[k].ports, runtimes[k].fetched, runtimes[k].kubeOutputs))]
        else []
  }

  function Skipped(failed: seq<(string, NodeError)>): seq<Warning> {
    seq(|failed|, i requires 0 <= i < |failed| => NodeSkipped(failed[i].0, failed[i].1))
  }

  function KubeWarningsOf(runtime: Runtime): seq<Warning> {
    seq(|runtime.kubeNotices|, i requires 0 <= i < |runtime.kubeNotices| =>
      KubeWarning(runtime.name, runtime.kubeNotices[i]))
  }

  function KubeWarnings(runtimes: seq<Runtime>): seq<Warning> {
    if runtimes == [] then []
    else
      var k := |runtimes| - 1;
      KubeWarnings(runtimes[..k]) + if runtimes[k].success then KubeWarningsOf(runtimes[k]) else []
  }

  function Report(plans: seq<Plan>, runtimes: seq<Runtime>): StartResult
    requires |runtimes| == |plans|
  {
    if FailedNodes(plans, runtimes, true) != [] then RequiredFailure(FailedNodes(plans, runtimes, true))
    else Started(Connections(runtimes), Skipped(FailedNodes(plans, runtimes, false)) + KubeWarnings(runtimes))
  }

  // ---------------------------------------------------------------- what a node's success means

  /** Each handle has the port that its own forward got. */
  predicate HasPorts(plan: Plan, ports: seq<(string, nat)>)
    requires IsWellFormed(plan)
  {
    && |ports| == |plan.node.handles|
    && forall i | 0 <= i < |plan.node.handles| ::
         plan.fate.attempts[i].Accepting? && ports[i] == (plan.node.handles[i], plan.fate.attempts[i].port)
  }

  /** Each file has its own result, and the required ones have content. */
  ghost predicate HasFiles(config: Config, plan: Plan, files: map<string, Fetcher.FetchedFile>)
    requires IsWellFormed(plan)
  {
    && files.Keys == Fetcher.Names(plan.node.files)
    && forall i | 0 <= i < |plan.node.files| ::
         var spec := plan.node.files[i];
         && spec.name in files
         && files[spec.name] == Fetcher.ResultOf(plan.fate.channel, plan.fate.fileAnswers[i], config.digest)
         && (spec.required ==> files[spec.name].content.Some?)
  }

  /** The i-th target succeeds, and this is its record, with the path of its file where there is one. */
  ghost predicate IsOutputOf(config: Config, plan: Plan, i: nat, entry: (string, KubeTargets.KubeOutput))
    requires IsWellFormed(plan) && i < |plan.node.targets|
  {
    var target, answer := plan.node.targets[i], plan.fate.kubeAnswers[i];
    && entry.0 == target.name && KubeTargets.Succeeds(target, answer)
    && KubeTargets.IsRecordOf(entry.1.(path := None), target, answer)
    && KubeTargets.AgreesWithContent(entry.1)
    && entry.1.path == if config.data.None? then None
                       else Some(config.data.value + "/" + plan.node.name + "-" + target.name)
  }

  /** The outputs are those of the targets that succeed, in schema order; the required ones are among them. */
  ghost predicate HasTargets(config: Config, plan: Plan, outputs: seq<(string, KubeTargets.KubeOutput)>)
    requires IsWellFormed(plan)
  {
    && (exists at: seq<nat> :: IsAscending(at) && |at| == |outputs| &&
          forall k | 0 <= k < |at| :: at[k] < |plan.node.targets| && IsOutputOf(config, plan, at[k], outputs[k]))
    && (forall i | 0 <= i < |plan.node.targets| ::
          && (plan.node.targets[i].name in KubeTargets.NamesOf(outputs) <==>
                KubeTargets.Succeeds(plan.node.targets[i], plan.fate.kubeAnswers[i]))
          && (plan.node.targets[i].required ==> plan.node.targets[i].name in KubeTargets.NamesOf(outputs)))
  }

  /** The output has all that the node asks for, as its own forwards, files and kube targets gave it. */
  ghost predicate Delivers(config: Config, plan: Plan, output: NodeOutput)
    requires IsWellFormed(plan)
  {
    && HasPorts(plan, output.ports) && HasFiles(config, plan, output.files)
    && HasTargets(config, plan, output.targets)
  }

  lemma SuccessHasPorts(config: Config, plan: Plan)
    requires IsWellFormed(plan) && ErrorOf(config, plan).None?
    ensures HasPorts(plan, Succeeded(config, plan).ports)
  {
  }

  lemma SuccessHasFile(config: Config, plan: Plan, i: nat)
    requires IsWellFormed(plan) && FailedFiles(config, plan) == [] && i < |plan.node.files|
    ensures var spec := plan.node.files[i];
      && Fetched(config, plan).Keys == Fetcher.Names(plan.node.files)
      && spec.name in Fetched(config, plan)
      && Fetched(config, plan)[spec.name]
         == Fetcher.ResultOf(plan.fate.channel, plan.fate.fileAnswers[i], config.digest)
      && (spec.required ==> Fetched(config, plan)[spec.name].content.Some?)
  {
    Fetcher.ResultsAreExact(
      plan.node.files, plan.fate.channel, plan.fate.fileAnswers, config.digest, i);
    Fetcher.RequiredFailuresAreExact(plan.node.files, Fetched(config, plan), plan.node.files[i].name);
  }

  lemma SuccessHasFiles(config: Config, plan: Plan)
    requires IsWellFormed(plan) && FailedFiles(config, plan) == []
    ensures HasFiles(config, plan, Fetched(config, plan))
  {
    forall i | 0 <= i < |plan.node.files|
      ensures var spec := plan.node.files[i];
        && spec.name in Fetched(config, plan)
        && Fetched(config, plan)[spec.name]
           == Fetcher.ResultOf(plan.fate.channel, plan.fate.fileAnswers[i], config.digest)
        && (spec.required ==> Fetched(config, plan)[spec.name].content.Some?)
    {
      SuccessHasFile(config, plan, i);
    }
    if plan.node.files != [] {
      SuccessHasFile(config, plan, 0);
    }
  }

  lemma PlacedOne(config: Config, name: string, entry: (string, KubeTargets.KubeOutput))
    requires entry.1.path.None?
    ensures var placed := Placed(config, name, [entry])[0];
      && placed.0 == entry.0 && placed.1.(path := None) == entry.1
      && placed.1.path
         == if config.data.None? then None else Some(config.data.value + "/" + name + "-" + entry.0)
  {
    if config.data.Some? {
      var data := config.data.value;
      assert data + "/" + (name + "-" + entry.0) == data + "/" + name + "-" + entry.0;
    }
  }

  lemma JudgedIsRecord(target: KubeTargets.KubeTarget, answer: KubeTargets.Answer, output: KubeTargets.KubeOutput)
    requires !KubeTargets.Aborts(target, answer) && KubeTargets.Judge(target, answer).output == Some(output)
    ensures KubeTargets.Succeeds(target, answer) && KubeTargets.IsRecordOf(output, target, answer)
    ensures KubeTargets.AgreesWithContent(output) && output.path.None?
  {
    KubeTargets.VerdictsAreSound(target, answer);
  }

  lemma PlacedIsOutput(config: Config, plan: Plan, i: nat, entry: (string, KubeTargets.KubeOutput))
    requires IsWellFormed(plan) && KubeReturns(plan) && i < |plan.node.targets|
    requires entry.0 == plan.node.targets[i].name
    requires KubeTargets.Judge(plan.node.targets[i], plan.fate.kubeAnswers[i]).output == Some(entry.1)
    ensures IsOutputOf(config, plan, i, Placed(config, plan.node.name, [entry])[0])
  {
    JudgedIsRecord(plan.node.targets[i], plan.fate.kubeAnswers[i], entry.1);
    PlacedOne(config, plan.node.name, entry);
    KubeTargets.PathIsNoContent(entry.1, Placed(config, plan.node.name, [entry])[0].1);
  }

  lemma PlacedOneByOne(config: Config, name: string, outputs: seq<(string, KubeTargets.KubeOutput)>, k: nat)
    requires k < |outputs|
    ensures Placed(config, name, outputs)[k] == Placed(config, name, [outputs[k]])[0]
  {
  }

  lemma SuccessNames(config: Config, plan: Plan, i: nat)
    requires IsWellFormed(plan) && KubeReturns(plan) && KubeAccount(plan).failures == [] && i < |plan.node.targets|
    ensures var names := KubeTargets.NamesOf(Placed(config, plan.node.name, KubeAccount(plan).outputs));
      && (plan.node.targets[i].name in names <==>
            KubeTargets.Succeeds(plan.node.targets[i], plan.fate.kubeAnswers[i]))
      && (plan.node.targets[i].required ==> plan.node.targets[i].name in names)
  {
    KubeTargets.TargetIsAccountedFor(plan.node.targets, plan.fate.kubeAnswers, i);
    var outputs := KubeAccount(plan).outputs;
    assert KubeTargets.NamesOf(Placed(config, plan.node.name, outputs)) == KubeTargets.NamesOf(outputs);
  }

  lemma SuccessOutputs(config: Config, plan: Plan) returns (at: seq<nat>)
    requires IsWellFormed(plan) && KubeReturns(plan)
    ensures var placed := Placed(config, plan.node.name, KubeAccount(plan).outputs);
      && IsAscending(at) && |at| == |placed|
      && forall k | 0 <= k < |at| :: at[k] < |plan.node.targets| && IsOutputOf(config, plan, at[k], placed[k])
  {
    var outputs := KubeAccount(plan).outputs;
    var placed := Placed(config, plan.node.name, outputs);
    at := KubeTargets.OutputsAreInOrder(
      plan.node.targets, KubeTargets.Verdicts(plan.node.targets, plan.fate.kubeAnswers));
    forall k | 0 <= k < |at|
      ensures at[k] < |plan.node.targets| && IsOutputOf(config, plan, at[k], placed[k])
    {
      PlacedIsOutput(config, plan, at[k], outputs[k]);
      PlacedOneByOne(config, plan.node.name, outputs, k);
    }
  }

  lemma SuccessHasTargets(config: Config, plan: Plan)
    requires IsWellFormed(plan) && KubeReturns(plan) && KubeAccount(plan).failures == []
    ensures HasTargets(config, plan, Placed(config, plan.node.name, KubeAccount(plan).outputs))
  {
    var at := SuccessOutputs(config, plan);
    forall i | 0 <= i < |plan.node.targets|
      ensures var names := KubeTargets.NamesOf(Placed(config, plan.node.name, KubeAccount(plan).outputs));
        && (plan.node.targets[i].name in names <==>
              KubeTargets.Succeeds(plan.node.targets[i], plan.fate.kubeAnswers[i]))
        && (plan.node.targets[i].required ==> plan.node.targets[i].name in names)
    {
      SuccessNames(config, plan, i);
    }
  }

  /** A node that succeeds delivers everything that was required of it. */
  lemma SuccessDelivers(config: Config, plan: Plan)
    requires IsWellFormed(plan) && ErrorOf(config, plan).None?
    ensures var r := Succeeded(config, plan);
      Delivers(config, plan, NodeOutput(r.ports, r.fetched, r.kubeOutputs))
  {
    SuccessHasPorts(config, plan);
    SuccessHasFiles(config, plan);
    SuccessHasTargets(config, plan);
  }

  // ---------------------------------------------------------------- what the report guarantees

  lemma {:induction false} FailedNodesAreExact(
      plans: seq<Plan>, runtimes: seq<Runtime>, required: bool, entry: (string, NodeError))
    requires |runtimes| == |plans|
    ensures entry in FailedNodes(plans, runtimes, required) <==>
      exists i :: 0 <= i < |plans| && plans[i].node.required == required && !runtimes[i].success
                  && runtimes[i].error == Some(entry.1) && runtimes[i].name == entry.0
  {
    if plans != [] {
      var k := |plans| - 1;
      FailedNodesAreExact(plans[..k], runtimes[..k], required, entry);
      assert forall i | 0 <= i < k :: plans[..k][i] == plans[i] && runtimes[..k][i] == runtimes[i];
    }
  }

  lemma {:induction false} ConnectionsAreExact(runtimes: seq<Runtime>, entry: (string, NodeOutput))
    ensures entry in Connections(runtimes) <==>
      exists i :: 0 <= i < |runtimes| && runtimes[i].success && runtimes[i].name == entry.0
                  && entry.1 == NodeOutput(runtimes[i].ports, runtimes[i].fetched, runtimes[i].kubeOutputs)
  {
    if runtimes != [] {
      var k := |runtimes| - 1;
      ConnectionsAreExact(runtimes[..k], entry);
      assert forall i | 0 <= i < k :: runtimes[..k][i] == runtimes[i];
    }
  }

  /** The node has an entry in the connections that delivers all it asks for. */
  ghost predicate IsServed(config: Config, connections: seq<(string, NodeOutput)>, plan: Plan)
    requires IsWellFormed(plan)
  {
    exists output :: (plan.node.name, output) in connections && Delivers(config, plan, output)
  }

  lemma SuccessIsServed(config: Config, plans: seq<Plan>, i: nat)
    requires IsSchema(plans) && i < |plans| && ErrorOf(config, plans[i]).None?
    ensures IsServed(config, Connections(Outcomes(config, plans)), plans[i])
  {
    var r := Outcomes(config, plans)[i];
    SuccessDelivers(config, plans[i]);
    ConnectionsAreExact(Outcomes(config, plans), (r.name, NodeOutput(r.ports, r.fetched, r.kubeOutputs)));
  }

  lemma ConnectionIsOfSuccess(config: Config, plans: seq<Plan>, entry: (string, NodeOutput))
    requires IsSchema(plans) && entry in Connections(Outcomes(config, plans))
    ensures exists i :: 0 <= i < |plans| && plans[i].node.name == entry.0 && ErrorOf(config, plans[i]).None?
                        && Delivers(config, plans[i], entry.1)
  {
    ConnectionsAreExact(Outcomes(config, plans), entry);
    var i :| 0 <= i < |plans| && Outcomes(config, plans)[i].success && Outcomes(config, plans)[i].name == entry.0
             && entry.1 == NodeOutput(Outcomes(config, plans)[i].ports, Outcomes(config, plans)[i].fetched,
                                      Outcomes(config, plans)[i].kubeOutputs);
    SuccessDelivers(config, plans[i]);
  }

  lemma FailedAreExact(
      config: Config, plans: seq<Plan>, required: bool, name: string, error: NodeError)
    requires IsSchema(plans)
    ensures (name, error) in FailedNodes(plans, Outcomes(config, plans), required) <==>
      exists i :: 0 <= i < |plans| && plans[i].node.required == required && plans[i].node.name == name
                  && ErrorOf(config, plans[i]) == Some(error)
  {
    var outcomes := Outcomes(config, plans);
    FailedNodesAreExact(plans, outcomes, required, (name, error));
    forall i | 0 <= i < |plans|
      ensures outcomes[i].name == plans[i].node.name && outcomes[i].error == ErrorOf(config, plans[i])
      ensures outcomes[i].success == outcomes[i].error.None?
    {
    }
  }

  /**
   What `start` guarantees. It reports a required failure exactly when some required node met an
   error, and then lists precisely those nodes with their errors. Otherwise every required node
   has a connection, and every connection, required or not, delivers the node's ports, the
   content of its required files and an output for each of its required kube targets.
   */
  lemma StartGuarantee(config: Config, plans: seq<Plan>)
    requires IsSchema(plans)
    ensures var r := Report(plans, Outcomes(config, plans));
      && (r.RequiredFailure? <==>
            exists i :: 0 <= i < |plans| && plans[i].node.required && ErrorOf(config, plans[i]).Some?)
      && (r.RequiredFailure? ==> forall name, error ::
            (name, error) in r.failed <==>
              exists i :: 0 <= i < |plans| && plans[i].node.required && plans[i].node.name == name
                          && ErrorOf(config, plans[i]) == Some(error))
      && (r.Started? ==>
            && (forall i | 0 <= i < |plans| && plans[i].node.required :: IsServed(config, r.connections, plans[i]))
            && (forall entry | entry in r.connections ::
                  exists i :: 0 <= i < |plans| && plans[i].node.name == entry.0
                              && ErrorOf(config, plans[i]).None? && Delivers(config, plans[i], entry.1)))
  {
    var outcomes := Outcomes(config, plans);
    var failed := FailedNodes(plans, outcomes, true);
    forall name, error
      ensures (name, error) in failed <==>
        exists i :: 0 <= i < |plans| && plans[i].node.required == true && plans[i].node.name == name
                    && ErrorOf(config, plans[i]) == Some(error)
    {
      FailedAreExact(config, plans, true, name, error);
    }
    if failed != [] {
      assert (failed[0].0, failed[0].1) in failed;
    }
    forall i | 0 <= i < |plans| && plans[i].node.required && ErrorOf(config, plans[i]).Some?
      ensures failed != []
    {
      assert (plans[i].node.name, ErrorOf(config, plans[i]).value) in failed;
    }
    if failed == [] {
      forall i | 0 <= i < |plans| && plans[i].node.required
        ensures IsServed(config, Connections(outcomes), plans[i])
      {
        SuccessIsServed(config, plans, i);
      }
      forall entry | entry in Connections(outcomes)
        ensures exists i :: 0 <= i < |plans| && plans[i].node.name == entry.0
                            && ErrorOf(config, plans[i]).None? && Delivers(config, plans[i], entry.1)
      {
        ConnectionIsOfSuccess(config, plans, entry);
      }
    }
  }

  // ---------------------------------------------------------------- warnings, and the order of it all

  lemma {:induction false} KubeWarningsAreExact(runtimes: seq<Runtime>, node: string, notice: KubeTargets.Notice)
    ensures KubeWarning(node, notice) in KubeWarnings(runtimes) <==>
      exists i :: 0 <= i < |runtimes| && runtimes[i].success && runtimes[i].name == node
                  && notice in runtimes[i].kubeNotices
    ensures forall i | 0 <= i < |KubeWarnings(runtimes)| :: KubeWarnings(runtimes)[i].KubeWarning?
  {
    if runtimes != [] {
      var k := |runtimes| - 1;
      KubeWarningsAreExact(runtimes[..k], node, notice);
      assert forall i | 0 <= i < k :: runtimes[..k][i] == runtimes[i];
      var own := KubeWarningsOf(runtimes[k]);
      if runtimes[k].name == node && notice in runtimes[k].kubeNotices {
        var j :| 0 <= j < |runtimes[k].kubeNotices| && runtimes[k].kubeNotices[j] == notice;
        assert own[j] == KubeWarning(node, notice);
      }
    }
  }

  function OwnWarnings(runtime: Runtime): seq<Warning> {
    if runtime.success then KubeWarningsOf(runtime) else []
  }

  lemma KubeWarningsSnoc(runtimes: seq<Runtime>, last: Runtime)
    ensures KubeWarnings(runtimes + [last]) == KubeWarnings(runtimes) + OwnWarnings(last)
  {
    assert (runtimes + [last])[..|runtimes|] == runtimes;
  }

  lemma ConsSnoc(first: Runtime, front: seq<Runtime>, last: Runtime)
    requires KubeWarnings([first] + front) == OwnWarnings(first) + KubeWarnings(front)
    ensures KubeWarnings([first] + front + [last]) == OwnWarnings(first) + KubeWarnings(front + [last])
  {
    var a, b, c := OwnWarnings(first), KubeWarnings(front), OwnWarnings(last);
    KubeWarningsSnoc(front, last);
    KubeWarningsSnoc([first] + front, last);
    assert a + b + c == a + (b + c);
  }

  /** The first node's warnings come first, and then those of the others. */
  lemma {:induction false} KubeWarningsCons(first: Runtime, runtimes: seq<Runtime>)
    ensures KubeWarnings([first] + runtimes) == OwnWarnings(first) + KubeWarnings(runtimes)
  {
    if runtimes == [] {
      KubeWarningsSnoc([], first);
      assert [first] + runtimes == [] + [first];
    } else {
      var front, last := runtimes[..|runtimes| - 1], runtimes[|runtimes| - 1];
      assert runtimes == front + [last];
      KubeWarningsCons(first, front);
      ConsSnoc(first, front, last);
      assert [first] + runtimes == [first] + front + [last];
    }
  }

  lemma SkippedAreExact(failed: seq<(string, NodeError)>, node: string, error: NodeError)
    ensures NodeSkipped(node, error) in Skipped(failed) <==> (node, error) in failed
    ensures forall warning | warning in Skipped(failed) :: warning.NodeSkipped?
  {
    if (node, error) in failed {
      var i :| 0 <= i < |failed| && failed[i] == (node, error);
      assert Skipped(failed)[i] == NodeSkipped(node, error);
    }
  }

  /** Node i succeeds, and this was noticed about its kube targets. */
  ghost predicate IsNoticed(config: Config, plans: seq<Plan>, i: nat, node: string, notice: KubeTargets.Notice)
    requires IsSchema(plans) && i < |plans|
  {
    && plans[i].node.name == node && ErrorOf(config, plans[i]).None? && notice in KubeAccount(plans[i]).notices
  }

  lemma OutcomeNotices(config: Config, plans: seq<Plan>, i: nat, node: string, notice: KubeTargets.Notice)
    requires IsSchema(plans) && i < |plans|
    ensures var r := Outcomes(config, plans)[i];
      IsNoticed(config, plans, i, node, notice) <==> r.success && r.name == node && notice in r.kubeNotices
  {
    assert Outcomes(config, plans)[i] == Outcome(config, plans[i]);
  }

  lemma NoticesAreExact(config: Config, plans: seq<Plan>, node: string, notice: KubeTargets.Notice)
    requires IsSchema(plans)
    ensures KubeWarning(node, notice) in KubeWarnings(Outcomes(config, plans)) <==>
      exists i :: 0 <= i < |plans| && IsNoticed(config, plans, i, node, notice)
  {
    var outcomes := Outcomes(config, plans);
    KubeWarningsAreExact(outcomes, node, notice);
    forall i | 0 <= i < |plans|
      ensures IsNoticed(config, plans, i, node, notice) <==>
        outcomes[i].success && outcomes[i].name == node && notice in outcomes[i].kubeNotices
    {
      OutcomeNotices(config, plans, i, node, notice);
    }
  }

  lemma WarningsAreTwoKinds(
      plans: seq<Plan>, runtimes: seq<Runtime>, node: string, error: NodeError, notice: KubeTargets.Notice)
    requires |runtimes| == |plans| && Report(plans, runtimes).Started?
    ensures var warnings := Report(plans, runtimes).warnings;
      && (NodeSkipped(node, error) in warnings <==> (node, error) in FailedNodes(plans, runtimes, false))
      && (KubeWarning(node, notice) in warnings <==> KubeWarning(node, notice) in KubeWarnings(runtimes))
  {
    SkippedAreExact(FailedNodes(plans, runtimes, false), node, error);
    KubeWarningsAreExact(runtimes, node, notice);
  }

  /**
   The warnings of a start are just the optional nodes that failed, with their errors, and what was
   noticed about the kube targets of nodes that succeeded.
   */
  lemma WarningsAreExact(config: Config, plans: seq<Plan>, node: string, error: NodeError, notice: KubeTargets.Notice)
    requires IsSchema(plans) && Report(plans, Outcomes(config, plans)).Started?
    ensures var warnings := Report(plans, Outcomes(config, plans)).warnings;
      && (NodeSkipped(node, error) in warnings <==>
            exists i :: 0 <= i < |plans| && !plans[i].node.required && plans[i].node.name == node
                        && ErrorOf(config, plans[i]) == Some(error))
      && (KubeWarning(node, notice) in warnings <==>
            exists i :: 0 <= i < |plans| && IsNoticed(config, plans, i, node, notice))
  {
    WarningsAreTwoKinds(plans, Outcomes(config, plans), node, error, notice);
    FailedAreExact(config, plans, false, node, error);
    NoticesAreExact(config, plans, node, notice);
  }

  function NamesOf<T>(entries: seq<(string, T)>): seq<string> {
    seq(|entries|, i requires 0 <= i < |entries| => entries[i].0)
  }

  function NodeNames(runtimes: seq<Runtime>): seq<string> {
    seq(|runtimes|, i requires 0 <= i < |runtimes| => runtimes[i].name)
  }

  lemma NamesSnoc<T>(front: seq<(string, T)>, last: (string, T))
    ensures NamesOf(front + [last]) == NamesOf(front) + [last.0]
  {
  }

  /** The nodes that were skipped come before all kube warnings. */
  lemma SkippedComeFirst(plans: seq<Plan>, runtimes: seq<Runtime>)
    requires |runtimes| == |plans| && Report(plans, runtimes).Started?
    ensures var warnings, n := Report(plans, runtimes).warnings, |FailedNodes(plans, runtimes, false)|;
      n <= |warnings| && forall i | 0 <= i < |warnings| :: warnings[i].NodeSkipped? <==> i < n
  {
    KubeWarningsAreExact(runtimes, "", KubeTargets.TargetFailed(""));
  }

  /** Failed nodes are listed in schema order, each once. */
  lemma {:induction false} FailedAreInOrder(plans: seq<Plan>, runtimes: seq<Runtime>, required: bool)
    returns (at: seq<nat>)
    requires |runtimes| == |plans|
    ensures IsPicked(NamesOf(FailedNodes(plans, runtimes, required)), NodeNames(runtimes), at)
  {
    at := [];
    if plans != [] {
      var n := |plans| - 1;
      var front := FailedNodes(plans[..n], runtimes[..n], required);
      at := FailedAreInOrder(plans[..n], runtimes[..n], required);
      assert NodeNames(runtimes) == NodeNames(runtimes[..n]) + [runtimes[n].name];
      PickSnoc(NamesOf(front), NodeNames(runtimes[..n]), at, runtimes[n].name);
      if FailedNodes(plans, runtimes, required) != front {
        NamesSnoc(front, (runtimes[n].name, runtimes[n].error.value));
        at := at + [n];
      }
    }
  }

  /** So are the connections. */
  lemma {:induction false} ConnectionsAreInOrder(runtimes: seq<Runtime>) returns (at: seq<nat>)
    ensures IsPicked(NamesOf(Connections(runtimes)), NodeNames(runtimes), at)
  {
    at := [];
    if runtimes != [] {
      var n := |runtimes| - 1;
      var front := Connections(runtimes[..n]);
      at := ConnectionsAreInOrder(runtimes[..n]);
      assert NodeNames(runtimes) == NodeNames(runtimes[..n]) + [runtimes[n].name];
      PickSnoc(NamesOf(front), NodeNames(runtimes[..n]), at, runtimes[n].name);
      if runtimes[n].success {
        NamesSnoc(front, Connections(runtimes)[|front|]);
        at := at + [n];
      }
    }
  }

  // ---------------------------------------------------------------- the manager

  /** The failures of required nodes and those of optional ones, each in schema order. */
  ghost predicate AreFailures(
      plans: seq<Plan>, results: seq<Runtime>, failed: seq<(string, NodeError)>, skipped: seq<(string, NodeError)>)
    requires |results| == |plans|
  {
    failed == FailedNodes(plans, results, true) && skipped == FailedNodes(plans, results, false)
  }

  method CollectFailed(plans: seq<Plan>, results: seq<Runtime>)
    returns (failed: seq<(string, NodeError)>, skipped: seq<(string, NodeError)>)
    requires |results| == |plans|
    ensures AreFailures(plans, results, failed, skipped)
  {
    failed, skipped := [], [];
    for i := 0 to |results|
      invariant failed == FailedNodes(plans[..i], results[..i], true)
      invariant skipped == FailedNodes(plans[..i], results[..i], false)
    {
      assert plans[..i + 1][..i] == plans[..i] && results[..i + 1][..i] == results[..i];
      if !results[i].success && results[i].error.Some? {
        if plans[i].node.required {
          failed := failed + [(results[i].name, results[i].error.value)];
        } else {
          skipped := skipped + [(results[i].name, results[i].error.value)];
        }
      }
    }
    assert plans[..|plans|] == plans && results[..|results|] == results;
  }

  /** The successful nodes' outputs and kube warnings, in schema order. */
  method CollectConnections(results: seq<Runtime>)
    returns (connections: seq<(string, NodeOutput)>, notices: seq<Warning>)
    ensures connections == Connections(results) && notices == KubeWarnings(results)
  {
    connections, notices := [], [];
    for i := 0 to |results|
      invariant connections == Connections(results[..i]) && notices == KubeWarnings(results[..i])
    {
      assert results[..i + 1][..i] == results[..i];
      if results[i].success {
        var output := NodeOutput(results[i].ports, results[i].fetched, results[i].kubeOutputs);
        connections, notices := connections + [(results[i].name, output)], notices + KubeWarningsOf(results[i]);
      }
    }
    assert results[..|results|] == results;
  }

  /** TunnelManager over one schema; `plans` holds its nodes and the answers that their calls will get. */
  class TunnelManager {
    const config: Config
    const plans: seq<Plan>
    const activity: Trackers
    var tasks: seq<Task>
    var runtimes: seq<Runtime>
    ghost var started: multiset<Resource>
    ghost var closed: multiset<Resource>

    ghost predicate Valid()
      reads this
    {
      IsSchema(plans) && IsOnPlans(config, plans, Snapshot())
    }

    ghost function Snapshot(): State
      reads this
    {
      State(tasks, runtimes, started, closed)
    }

    constructor (config: Config, plans: seq<Plan>, now: real)
      requires IsSchema(plans)
      ensures Valid() && Snapshot() == Initial(plans) && this.config == config && this.plans == plans
      ensures fresh(activity) && fresh(activity.aggregate) && activity.Valid()
      ensures activity.born == now && activity.hooks == [] && activity.trackers == []
    {
      this.config, this.plans := config, plans;
      activity := new Trackers(now);
      tasks, runtimes, started, closed := Initial(plans).tasks, [], multiset{}, multiset{};
      new;
      InitialConserves(config, plans);
    }

    /**
     One node's coroutine runs to its next await, or raises what is not listed; a success joins the
     runtimes in completion order.
     */
    method TakeTurn(turn: Turn)
      requires Valid() && turn.node < |plans|
      modifies this
      ensures Valid() && Snapshot() == Step(config, plans, old(Snapshot()), turn)
    {
      StepStaysOnPlans(config, plans, Snapshot(), turn);
      var i := turn.node;
      if !CanTake(plans[i], tasks[i], turn) {
        return;
      }
      var p := Take(config, plans[i], tasks[i], turn);
      tasks := tasks[i := p.task];
      if p.task.Done? && p.task.runtime.success {
        runtimes := runtimes + [p.task.runtime];
      }
      started, closed := started + multiset(p.started), closed + multiset(p.closed);
    }

    /** Takes the runtimes, clears the list, and closes every transport that was in it. */
    method StopAll()
      requires Valid()
      modifies this
      ensures Valid() && Snapshot() == Stop(old(Snapshot()))
    {
      var taken := runtimes;
      runtimes := [];
      ghost var before := closed;
      for i := 0 to |taken|
        invariant runtimes == [] && tasks == old(tasks) && started == old(started)
        invariant closed == before + Held(taken[..i])
      {
        HeldGrows(taken[..i], taken[i]);
        assert taken[..i + 1] == taken[..i] + [taken[i]];
        closed := closed + multiset(taken[i].resources);
      }
      assert taken[..|taken|] == taken;
    }

    /** gather: the coroutines in the given interleaving. */
    method StartAll(schedule: seq<Turn>)
      requires Valid() && IsSchedule(plans, schedule)
      modifies this
      ensures Valid() && Snapshot() == Run(config, plans, old(Snapshot()), schedule)
    {
      for k := 0 to |schedule|
        invariant Valid()
        invariant Run(config, plans, Snapshot(), schedule[k..]) == Run(config, plans, old(Snapshot()), schedule)
      {
        assert schedule[k..][0] == schedule[k] && schedule[k..][1..] == schedule[k + 1..];
        TakeTurn(schedule[k]);
      }
    }

    /** With every coroutine done and the balance kept, only the runtimes hold anything. */
    lemma EverythingIsClosed(schedule: seq<Turn>)
      requires IsSchema(plans) && IsOnPlans(config, plans, Initial(plans)) && IsSchedule(plans, schedule)
      requires Snapshot() == Run(config, plans, Initial(plans), schedule) && AllDone(tasks)
      ensures closed + Held(runtimes) == started
    {
      forall r: Resource
        ensures (closed + Held(runtimes))[r] == started[r]
      {
        EverythingIsClosedOnce(config, plans, schedule, r);
      }
    }

    /** gather is over: every coroutine is done, or an unlisted error has reached it. */
    ghost predicate IsGathered(schedule: seq<Turn>)
      reads this
      requires IsSchema(plans) && IsOnPlans(config, plans, Initial(plans)) && IsSchedule(plans, schedule)
    {
      var ended := Run(config, plans, Initial(plans), schedule).tasks;
      AllDone(ended) || AnyRaised(ended)
    }

    /**
     An unlisted error comes out as it is, with everything where it was. Otherwise the report depends
     on the schema and the nodes' fates only: after a required failure nothing is left open, after a
     success exactly the connections' transports are.
     */
    method StartAllAndBuildOutput(schedule: seq<Turn>) returns (result: Option<StartResult>)
      requires Valid() && Snapshot() == Initial(plans) && IsSchedule(plans, schedule) && IsGathered(schedule)
      modifies this
      ensures Valid() && (result.None? <==> AnyRaised(Run(config, plans, Initial(plans), schedule).tasks))
      ensures result.None? ==> Snapshot() == Run(config, plans, Initial(plans), schedule)
      ensures result.Some? ==>
        && result.value == Report(plans, Outcomes(config, plans)) && AllDone(tasks)
        && closed + Held(runtimes) == started
      ensures result.Some? && result.value.RequiredFailure? ==> runtimes == [] && closed == started
    {
      StartAll(schedule);
      if AnyRaised(tasks) {
        return None;
      }
      ScheduleIndependence(config, plans, schedule);
      EverythingIsClosed(schedule);
      var results := Gathered(tasks);
      var failed, skipped := CollectFailed(plans, results);
      if failed != [] {
        StopAll();
        return Some(RequiredFailure(failed));
      }
      var connections, notices := CollectConnections(results);
      result := Some(Started(connections, Skipped(skipped) + notices));
    }
  }
}
