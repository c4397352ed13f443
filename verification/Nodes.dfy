/**
 manager.py: one node's start, as a coroutine that runs from await to await. What the network and
 the remote host will answer is the node's fate; the coroutine turns it into a runtime.
 */
module Nodes {
  import opened Wrappers
  import Forwards
  import Fetcher
  import Kubeconfig
  import KubeTargets

  datatype Node = Node(
    name: string,
    required: bool,
    handles: seq<string>,
    files: seq<Fetcher.FileSpec>,
    targets: seq<KubeTargets.KubeTarget>)

  /** The answers to one node's calls; `connect` is the connection error, if any. */
  datatype Fate = Fate(
    connect: Option<string>,
    attempts: seq<Forwards.Attempt>,
    channel: Fetcher.Channel,
    fileAnswers: seq<Fetcher.FileAnswer>,
    kubeAnswers: seq<KubeTargets.Answer>)

  datatype Plan = Plan(node: Node, fate: Fate)

  /** `digest` is SHA-256; where kube outputs are materialized, `data` is the path of tunnel-data/. */
  datatype Config = Config(digest: Fetcher.Bytes -> string, data: Option<string>)

  /** The file that a kube target is materialized to. */
  function MaterialName(node: string, target: string): string {
    node + "-" + target
  }

  /** str(self._data / name) */
  function MaterialPath(data: string, node: string, target: string): string {
    data + "/" + MaterialName(node, target)
  }

  /** The schema's dictionaries have distinct keys, and every call gets an answer. */
  ghost predicate IsWellFormed(plan: Plan) {
    && |plan.fate.attempts| == |plan.node.handles|
    && |plan.fate.fileAnswers| == |plan.node.files|
    && |plan.fate.kubeAnswers| == |plan.node.targets|
    && (forall i, j | 0 <= i < j < |plan.node.handles| :: plan.node.handles[i] != plan.node.handles[j])
    && Fetcher.HasDistinctNames(plan.node.files)
    && KubeTargets.HasDistinctNames(plan.node.targets)
  }

  datatype NodeError =
    | ConnectFailed(error: string)
    | ForwardFailed(cause: Forwards.StartupError)
    | RequiredFilesFailed(names: seq<string>)
    | KubeRaised
    | RequiredKubeFailed(names: seq<string>)

  /** What close_transport is for. */
  datatype Resource = Connection(node: string) | Listener(node: string, handle: string)

  /** _NodeRuntime; `resources` are its listeners, then its connection. */
  datatype Runtime = Runtime(
    name: string,
    success: bool,
    ports: seq<(string, nat)>,
    fetched: map<string, Fetcher.FetchedFile>,
    kubeOutputs: seq<(string, KubeTargets.KubeOutput)>,
    kubeNotices: seq<KubeTargets.Notice>,
    resources: seq<Resource>,
    error: Option<NodeError>)

  // ---------------------------------------------------------------- the outcome of a fate

  function Ports(plan: Plan): seq<(string, nat)>
    requires IsWellFormed(plan) && Forwards.AllAccepting(plan.fate.attempts)
  {
    Forwards.PortEntries(plan.node.handles, plan.fate.attempts)
  }

  function Fetched(config: Config, plan: Plan): map<string, Fetcher.FetchedFile>
    requires IsWellFormed(plan)
  {
    Fetcher.Results(plan.node.files, plan.fate.channel, plan.fate.fileAnswers, config.digest)
  }

  function FailedFiles(config: Config, plan: Plan): seq<string>
    requires IsWellFormed(plan)
  {
    Fetcher.RequiredFailures(plan.node.files, Fetched(config, plan))
  }

  predicate KubeReturns(plan: Plan)
    requires IsWellFormed(plan)
  {
    KubeTargets.NoneAborts(plan.node.targets, plan.fate.kubeAnswers)
  }

  function KubeAccount(plan: Plan): KubeTargets.Account
    requires IsWellFormed(plan) && KubeReturns(plan)
  {
    KubeTargets.AccountOf(plan.node.targets, KubeTargets.Verdicts(plan.node.targets, plan.fate.kubeAnswers))
  }

  /** The outputs as returned: with the path of the materialized file, if there is one. */
  function Placed(config: Config, node: string, outputs: seq<(string, KubeTargets.KubeOutput)>)
    : (placed: seq<(string, KubeTargets.KubeOutput)>)
    ensures |placed| == |outputs|
    ensures forall i | 0 <= i < |outputs| ::
      && placed[i].0 == outputs[i].0
      && placed[i].1 == outputs[i].1.(path := placed[i].1.path)
      && (config.data.Some? ==> placed[i].1.path == Some(MaterialPath(config.data.value, node, outputs[i].0)))
  {
    if config.data.Some? then
      seq(|outputs|, i requires 0 <= i < |outputs| =>
        (outputs[i].0, outputs[i].1.(path := Some(MaterialPath(config.data.value, node, outputs[i].0)))))
    else outputs
  }

  function Listeners(node: Node, n: nat): seq<Resource>
    requires n <= |node.handles|
  {
    seq(n, i requires 0 <= i < n => Listener(node.name, node.handles[i]))
  }

  /** Where a forwards loop stops: the first target that does not accept, or the end. */
  function FirstFailure(attempts: seq<Forwards.Attempt>): (k: nat)
    ensures k <= |attempts| && Forwards.AllAccepting(attempts[..k])
    ensures k < |attempts| ==> !attempts[k].Accepting?
    ensures k == |attempts| <==> Forwards.AllAccepting(attempts)
  {
    if attempts == [] then 0
    else if !attempts[0].Accepting? then 0
    else
      var k := FirstFailure(attempts[1..]);
      assert attempts[..k + 1] == [attempts[0]] + attempts[1..][..k];
      assert Forwards.AllAccepting(attempts) ==> Forwards.AllAccepting(attempts[1..]);
      assert k + 1 == |attempts| ==> attempts[..k + 1] == attempts;
      k + 1
  }

  function ForwardError(plan: Plan, k: nat): NodeError
    requires IsWellFormed(plan) && k < |plan.fate.attempts| && !plan.fate.attempts[k].Accepting?
  {
    match plan.fate.attempts[k]
    case Refused(e) => ForwardFailed(Forwards.ForwardRefused(e))
    case NotAccepting(port) => ForwardFailed(Forwards.ForwardNotAccepting(plan.node.handles[k], port))
  }

  /** The first error that a node's fate holds for it, if any: connection, forwards, files, kube targets. */
  function ErrorOf(config: Config, plan: Plan): Option<NodeError>
    requires IsWellFormed(plan)
  {
    if plan.fate.connect.Some? then Some(ConnectFailed(plan.fate.connect.value))
    else if !Forwards.AllAccepting(plan.fate.attempts) then
      Some(ForwardError(plan, FirstFailure(plan.fate.attempts)))
    else if FailedFiles(config, plan) != [] then Some(RequiredFilesFailed(FailedFiles(config, plan)))
    else if !KubeReturns(plan) then Some(KubeRaised)
    else if KubeAccount(plan).failures != [] then Some(RequiredKubeFailed(KubeAccount(plan).failures))
    else None
  }

  /** Two required targets; the first one's forward fails, the second one's answers are all good. */
  function OneRefusedForward(): Plan {
    var doc := KubeTargets.Document(Kubeconfig.UnverifiedDoc());
    Plan(
      Node("n", true, [], [],
           [KubeTargets.KubeTarget("a", Some("t"), false, true), KubeTargets.KubeTarget("b", Some("t"), false, true)]),
      Fate(None, [], Fetcher.Serves(None), [],
           [KubeTargets.Answer(doc, Some("h"), Err("refused"), Err("")),
            KubeTargets.Answer(doc, Some("h"), Ok(1), Err(""))]))
  }

  /** A target that would succeed goes down with the one before it, and so does the node. */
  lemma OneTargetAbortsNode(config: Config)
    ensures var plan := OneRefusedForward();
      && IsWellFormed(plan)
      && KubeTargets.Aborts(plan.node.targets[0], plan.fate.kubeAnswers[0])
      && KubeTargets.Succeeds(plan.node.targets[1], plan.fate.kubeAnswers[1])
      && ErrorOf(config, plan) == Some(KubeRaised)
  {
    Kubeconfig.UnverifiedDocParses();
  }

  /** The runtime that a node's fate leads to, in whatever order the nodes are run. */
  function Outcome(config: Config, plan: Plan): (r: Runtime)
    requires IsWellFormed(plan)
    ensures r.success <==> r.error.None?
    ensures r.error == ErrorOf(config, plan) && r.name == plan.node.name
    ensures !r.success ==> r.resources == []
  {
    match ErrorOf(config, plan)
    case None => Succeeded(config, plan)
    case Some(error) => FailedWith(config, plan, error)
  }

  function Succeeded(config: Config, plan: Plan): Runtime
    requires IsWellFormed(plan) && Forwards.AllAccepting(plan.fate.attempts) && KubeReturns(plan)
  {
    Runtime(
      plan.node.name, true, Ports(plan), Fetched(config, plan),
      Placed(config, plan.node.name, KubeAccount(plan).outputs), KubeAccount(plan).notices,
      Listeners(plan.node, |plan.node.handles|) + [Connection(plan.node.name)], None)
  }

  /** A failed node keeps what it had found before the error, but no resource. */
  function FailedWith(config: Config, plan: Plan, error: NodeError): Runtime
    requires IsWellFormed(plan)
    requires !error.ConnectFailed? && !error.ForwardFailed? ==> Forwards.AllAccepting(plan.fate.attempts)
    requires error.RequiredKubeFailed? ==> KubeReturns(plan)
  {
    var ports := if error.ConnectFailed? || error.ForwardFailed? then [] else Ports(plan);
    var fetched := if error.ConnectFailed? || error.ForwardFailed? then map[] else Fetched(config, plan);
    if error.RequiredKubeFailed? then
      Runtime(plan.node.name, false, ports, fetched,
              Placed(config, plan.node.name, KubeAccount(plan).outputs), KubeAccount(plan).notices,
              [], Some(error))
    else Runtime(plan.node.name, false, ports, fetched, [], [], [], Some(error))
  }

  // ---------------------------------------------------------------- which error a fate holds

  /** The names of the required files that cannot be delivered. */
  ghost predicate AreUndelivered(plan: Plan, names: seq<string>)
    requires IsWellFormed(plan)
  {
    forall name :: name in names <==>
      exists i :: 0 <= i < |plan.node.files| && plan.node.files[i].name == name && plan.node.files[i].required
                  && !Fetcher.IsDeliverable(plan.fate.channel, plan.fate.fileAnswers[i])
  }

  /** The names of the required kube targets that do not succeed. */
  ghost predicate AreUnserved(plan: Plan, names: seq<string>)
    requires IsWellFormed(plan)
  {
    forall name :: name in names <==>
      exists i :: 0 <= i < |plan.node.targets| && plan.node.targets[i].name == name && plan.node.targets[i].required
                  && !KubeTargets.Succeeds(plan.node.targets[i], plan.fate.kubeAnswers[i])
  }

  lemma FailedFilesAreUndelivered(config: Config, plan: Plan)
    requires IsWellFormed(plan)
    ensures AreUndelivered(plan, FailedFiles(config, plan))
  {
    forall i | 0 <= i < |plan.node.files|
      ensures plan.node.files[i].name in Fetched(config, plan)
      ensures Fetched(config, plan)[plan.node.files[i].name].error.Some? <==>
        !Fetcher.IsDeliverable(plan.fate.channel, plan.fate.fileAnswers[i])
    {
      Fetcher.ResultsAreExact(plan.node.files, plan.fate.channel, plan.fate.fileAnswers, config.digest, i);
    }
    forall name
      ensures name in FailedFiles(config, plan) <==>
        exists i :: 0 <= i < |plan.node.files| && plan.node.files[i].name == name && plan.node.files[i].required
                    && !Fetcher.IsDeliverable(plan.fate.channel, plan.fate.fileAnswers[i])
    {
      Fetcher.RequiredFailuresAreExact(plan.node.files, Fetched(config, plan), name);
    }
  }

  lemma FailuresAreUnserved(plan: Plan)
    requires IsWellFormed(plan) && KubeReturns(plan)
    ensures AreUnserved(plan, KubeAccount(plan).failures)
  {
    var targets, answers, failures := plan.node.targets, plan.fate.kubeAnswers, KubeAccount(plan).failures;
    forall i | 0 <= i < |targets|
      ensures targets[i].name in failures <==> targets[i].required && !KubeTargets.Succeeds(targets[i], answers[i])
    {
      KubeTargets.TargetIsAccountedFor(targets, answers, i);
    }
    var failed := KubeTargets.FailuresAreInOrder(targets, KubeTargets.Verdicts(targets, answers));
    forall name | name in failures
      ensures exists i :: 0 <= i < |targets| && targets[i].name == name
    {
      var k :| 0 <= k < |failures| && failures[k] == name;
      assert targets[failed[k]].name == name;
    }
  }

  /** What an error says of the node's fate; the absence of one says that all went well. */
  ghost predicate IsErrorOf(plan: Plan, error: Option<NodeError>)
    requires IsWellFormed(plan)
  {
    var connects, forwards := plan.fate.connect.None?, Forwards.AllAccepting(plan.fate.attempts);
    match error
    case None =>
      connects && forwards && AreUndelivered(plan, []) && KubeReturns(plan) && AreUnserved(plan, [])
    case Some(ConnectFailed(e)) => plan.fate.connect == Some(e)
    case Some(ForwardFailed(cause)) =>
      connects && exists k, mine :: Forwards.FailsAt(plan.node.handles, plan.fate.attempts, k, cause, mine)
    case Some(RequiredFilesFailed(names)) => connects && forwards && names != [] && AreUndelivered(plan, names)
    case Some(KubeRaised) => connects && forwards && AreUndelivered(plan, []) && !KubeReturns(plan)
    case Some(RequiredKubeFailed(names)) =>
      connects && forwards && AreUndelivered(plan, []) && KubeReturns(plan) && names != [] && AreUnserved(plan, names)
  }

  lemma ForwardErrorIs(plan: Plan)
    requires IsWellFormed(plan) && !Forwards.AllAccepting(plan.fate.attempts)
    ensures var k := FirstFailure(plan.fate.attempts);
      ForwardError(plan, k).ForwardFailed?
      && exists mine :: Forwards.FailsAt(plan.node.handles, plan.fate.attempts, k, ForwardError(plan, k).cause, mine)
  {
    var k := FirstFailure(plan.fate.attempts);
    var mine := if plan.fate.attempts[k].Refused? then plan.node.handles[..k] else plan.node.handles[..k + 1];
    assert Forwards.FailsAt(plan.node.handles, plan.fate.attempts, k, ForwardError(plan, k).cause, mine);
  }

  /** A node's error is the first that its fate holds, in the order of the start, and names just what failed. */
  lemma ErrorSays(config: Config, plan: Plan)
    requires IsWellFormed(plan)
    ensures IsErrorOf(plan, ErrorOf(config, plan))
  {
    FailedFilesAreUndelivered(config, plan);
    if !Forwards.AllAccepting(plan.fate.attempts) {
      ForwardErrorIs(plan);
    } else if KubeReturns(plan) {
      FailuresAreUnserved(plan);
    }
  }

  // ---------------------------------------------------------------- the coroutine

  /**
   Where `_start_one` is suspended. Closing has still to close these, then it returns its runtime. An
   error that it does not list ends it in Raised, with what it leaves open; in open_local_forwards the
   listeners are closed on the way (Unwinding).
   */
  datatype Task =
    | Pending
    | Forwarding(next: nat)
    | Fetching
    | Kube(fetched: map<string, Fetcher.FetchedFile>)
    | Closing(remaining: seq<Resource>, runtime: Runtime)
    | Done(runtime: Runtime)
    | Unwinding(remaining: seq<Resource>)
    | Raised(kept: seq<Resource>)

  /** It runs no more. */
  predicate IsOver(task: Task) {
    task.Done? || task.Raised?
  }

  /** Resources of the node, its connection last. */
  predicate EndsInConnection(node: Node, resources: seq<Resource>) {
    && resources != [] && resources[|resources| - 1] == Connection(node.name)
    && forall i | 0 <= i < |resources| :: resources[i].node == node.name
  }

  /** One run of the coroutine up to its next await: where it then is, and what it opened and closed. */
  datatype Progress = Progress(task: Task, started: seq<Resource>, closed: seq<Resource>)

  /** The coroutine is where it is because of the plan's fate, and of an unlisted error if it met one. */
  ghost predicate IsOnPlan(config: Config, plan: Plan, task: Task)
    requires IsWellFormed(plan)
  {
    match task
    case Pending => true
    case Forwarding(k) =>
      plan.fate.connect.None? && k <= |plan.node.handles| && Forwards.AllAccepting(plan.fate.attempts[..k])
    case Fetching => plan.fate.connect.None? && Forwards.AllAccepting(plan.fate.attempts)
    case Kube(fetched) =>
      && plan.fate.connect.None? && Forwards.AllAccepting(plan.fate.attempts)
      && fetched == Fetched(config, plan) && FailedFiles(config, plan) == []
    case Closing(remaining, runtime) =>
      EndsInConnection(plan.node, remaining) && runtime == Outcome(config, plan) && !runtime.success
    case Done(runtime) => runtime == Outcome(config, plan)
    case Unwinding(remaining) => EndsInConnection(plan.node, remaining)
    case Raised(kept) => kept == [] || EndsInConnection(plan.node, kept)
  }

  /** The listeners on the first n targets and the connection under them. */
  function Transport(node: Node, n: nat): (r: seq<Resource>)
    requires n <= |node.handles|
    ensures EndsInConnection(node, r)
  {
    Listeners(node, n) + [Connection(node.name)]
  }

  /** After the forwards: fetch files if the node has any, and go on otherwise. */
  function AfterForwards(config: Config, plan: Plan): Task
    requires IsWellFormed(plan) && IsOnPlan(config, plan, Fetching)
  {
    if plan.node.files != [] then Fetching else AfterFiles(config, plan, map[])
  }

  function AfterFiles(config: Config, plan: Plan, fetched: map<string, Fetcher.FetchedFile>): Task
    requires IsWellFormed(plan) && IsOnPlan(config, plan, Fetching)
    requires fetched == Fetched(config, plan) && FailedFiles(config, plan) == []
  {
    if plan.node.targets != [] then Kube(fetched) else Done(Succeeded(config, plan))
  }

  function Advance(config: Config, plan: Plan, task: Task): Progress
    requires IsWellFormed(plan) && IsOnPlan(config, plan, task) && !IsOver(task)
  {
    var n := |plan.node.handles|;
    match task
    case Pending =>
      if plan.fate.connect.Some? then
        Progress(Done(FailedWith(config, plan, ConnectFailed(plan.fate.connect.value))), [], [])
      else Progress(Forwarding(0), [Connection(plan.node.name)], [])
    case Forwarding(k) =>
      if k == n then
        assert plan.fate.attempts[..k] == plan.fate.attempts;
        Progress(AfterForwards(config, plan), [], [])
      else
        var listener := Listener(plan.node.name, plan.node.handles[k]);
        (match plan.fate.attempts[k]
         case Accepting(_) => Progress(Forwarding(k + 1), [listener], [])
         case Refused(_) =>
           Progress(Closing(Transport(plan.node, k), FailedWith(config, plan, ForwardError(plan, k))), [], [])
         case NotAccepting(_) =>
           Progress(Closing(Transport(plan.node, k + 1), FailedWith(config, plan, ForwardError(plan, k))),
                    [listener], []))
    case Fetching =>
      var failures := FailedFiles(config, plan);
      if failures != [] then
        Progress(Closing(Transport(plan.node, n), FailedWith(config, plan, RequiredFilesFailed(failures))), [], [])
      else Progress(AfterFiles(config, plan, Fetched(config, plan)), [], [])
    case Kube(_) =>
      if !KubeReturns(plan) then
        Progress(Closing(Transport(plan.node, n), FailedWith(config, plan, KubeRaised)), [], [])
      else if KubeAccount(plan).failures != [] then
        var error := RequiredKubeFailed(KubeAccount(plan).failures);
        Progress(Closing(Transport(plan.node, n), FailedWith(config, plan, error)), [], [])
      else Progress(Done(Succeeded(config, plan)), [], [])
    case Closing(remaining, runtime) =>
      var next := if |remaining| == 1 then Done(runtime) else Closing(remaining[1..], runtime);
      Progress(next, [], [remaining[0]])
    case Unwinding(remaining) =>
      if |remaining| == 1 then Progress(Raised(remaining), [], [])
      else Progress(Unwinding(remaining[1..]), [], [remaining[0]])
  }

  /** An unlisted error can only come out of a call that is awaited. */
  predicate CanRaise(plan: Plan, task: Task) {
    !IsOver(task) && (task.Forwarding? ==> task.next < |plan.node.handles|)
  }

  /** The awaited call raises such an error; a forward may have been `listening` already. */
  function Throw(plan: Plan, task: Task, listening: bool): Progress
    requires CanRaise(plan, task)
  {
    match task
    case Pending => Progress(Raised([]), [], [])
    case Forwarding(k) =>
      if listening then
        Progress(Unwinding(Transport(plan.node, k + 1)), [Listener(plan.node.name, plan.node.handles[k])], [])
      else Progress(Unwinding(Transport(plan.node, k)), [], [])
    case Fetching => Progress(Raised(Transport(plan.node, |plan.node.handles|)), [], [])
    case Kube(_) => Progress(Raised(Transport(plan.node, |plan.node.handles|)), [], [])
    case Closing(remaining, _) => Progress(Raised(remaining), [], [])
    case Unwinding(remaining) => Progress(Raised(remaining), [], [])
  }

  lemma FirstFailureIs(attempts: seq<Forwards.Attempt>, k: nat)
    requires k < |attempts| && Forwards.AllAccepting(attempts[..k]) && !attempts[k].Accepting?
    ensures FirstFailure(attempts) == k
  {
  }

  lemma ForwardingStaysOnPlan(config: Config, plan: Plan, k: nat)
    requires IsWellFormed(plan) && IsOnPlan(config, plan, Forwarding(k))
    ensures IsOnPlan(config, plan, Advance(config, plan, Forwarding(k)).task)
  {
    var attempts := plan.fate.attempts;
    if k == |plan.node.handles| {
      assert attempts[..k] == attempts;
    } else if attempts[k].Accepting? {
      assert attempts[..k + 1] == attempts[..k] + [attempts[k]];
    } else {
      FirstFailureIs(attempts, k);
    }
  }

  lemma RestEndsInConnection(node: Node, remaining: seq<Resource>)
    requires EndsInConnection(node, remaining) && |remaining| > 1
    ensures EndsInConnection(node, remaining[1..])
  {
  }

  lemma ClosingStaysOnPlan(config: Config, plan: Plan, task: Task)
    requires IsWellFormed(plan) && IsOnPlan(config, plan, task) && (task.Closing? || task.Unwinding?)
    ensures IsOnPlan(config, plan, Advance(config, plan, task).task)
  {
    if |task.remaining| > 1 {
      RestEndsInConnection(plan.node, task.remaining);
    }
  }

  /** Whatever way the coroutine goes, it is headed for the outcome of its fate. */
  lemma AdvanceStaysOnPlan(config: Config, plan: Plan, task: Task)
    requires IsWellFormed(plan) && IsOnPlan(config, plan, task) && !IsOver(task)
    ensures IsOnPlan(config, plan, Advance(config, plan, task).task)
  {
    match task
    case Forwarding(k) => ForwardingStaysOnPlan(config, plan, k);
    case Closing(_, _) => ClosingStaysOnPlan(config, plan, task);
    case Unwinding(_) => ClosingStaysOnPlan(config, plan, task);
    case _ =>
  }

  /** What a coroutine is responsible for; what one that raised leaves open is closed by nobody. */
  function Owned(plan: Plan, task: Task): multiset<Resource>
  {
    match task
    case Pending => multiset{}
    case Forwarding(k) => if k <= |plan.node.handles| then multiset(Transport(plan.node, k)) else multiset{}
    case Fetching => multiset(Transport(plan.node, |plan.node.handles|))
    case Kube(_) => multiset(Transport(plan.node, |plan.node.handles|))
    case Closing(remaining, _) => multiset(remaining)
    case Done(_) => multiset{}
    case Unwinding(remaining) => multiset(remaining)
    case Raised(kept) => multiset(kept)
  }

  /** What a finished coroutine has handed over to the manager. */
  function HandedOver(task: Task): multiset<Resource> {
    if task.Done? then multiset(task.runtime.resources) else multiset{}
  }

  /** Nothing is lost: what it had and what it opened, it still has, hands over, or has closed. */
  predicate Conserves(plan: Plan, task: Task, p: Progress) {
    Owned(plan, task) + multiset(p.started) == Owned(plan, p.task) + HandedOver(p.task) + multiset(p.closed)
  }

  lemma TransportGrows(node: Node, k: nat)
    requires k < |node.handles|
    ensures multiset(Transport(node, k + 1))
            == multiset(Transport(node, k)) + multiset([Listener(node.name, node.handles[k])])
  {
    assert Listeners(node, k + 1) == Listeners(node, k) + [Listener(node.name, node.handles[k])];
  }

  /** One more forward: it joins the transport, or the transport with or without it is given up. */
  predicate TakesForward(plan: Plan, k: nat, p: Progress)
    requires k < |plan.node.handles|
  {
    var listener := Listener(plan.node.name, plan.node.handles[k]);
    && p.closed == []
    && match p.task
       case Forwarding(next) => next == k + 1 && p.started == [listener]
       case Closing(remaining, _) =>
         || (remaining == Transport(plan.node, k) && p.started == [])
         || (remaining == Transport(plan.node, k + 1) && p.started == [listener])
       case _ => false
  }

  lemma ForwardingTakesForward(config: Config, plan: Plan, k: nat)
    requires IsWellFormed(plan) && IsOnPlan(config, plan, Forwarding(k)) && k < |plan.node.handles|
    ensures TakesForward(plan, k, Advance(config, plan, Forwarding(k)))
  {
  }

  lemma TakingConserves(plan: Plan, k: nat, p: Progress)
    requires k < |plan.node.handles| && TakesForward(plan, k, p)
    ensures Conserves(plan, Forwarding(k), p)
  {
    TransportGrows(plan.node, k);
  }

  lemma ForwardsDoneConserves(config: Config, plan: Plan, k: nat)
    requires IsWellFormed(plan) && IsOnPlan(config, plan, Forwarding(k)) && k == |plan.node.handles|
    ensures Conserves(plan, Forwarding(k), Advance(config, plan, Forwarding(k)))
  {
    assert plan.fate.attempts[..k] == plan.fate.attempts;
  }

  /** The whole transport, as a coroutine past its forwards keeps it, gives it up or hands it over. */
  predicate KeepsTransport(plan: Plan, p: Progress) {
    var transport := Transport(plan.node, |plan.node.handles|);
    && p.started == [] && p.closed == []
    && match p.task
       case Kube(_) => true
       case Closing(remaining, _) => remaining == transport
       case Done(runtime) => runtime.resources == transport
       case _ => false
  }

  lemma FetchingKeepsTransport(config: Config, plan: Plan)
    requires IsWellFormed(plan) && IsOnPlan(config, plan, Fetching)
    ensures KeepsTransport(plan, Advance(config, plan, Fetching))
  {
  }

  lemma KubeKeepsTransport(config: Config, plan: Plan, task: Task)
    requires IsWellFormed(plan) && IsOnPlan(config, plan, task) && task.Kube?
    ensures KeepsTransport(plan, Advance(config, plan, task))
  {
  }

  lemma KeepingConserves(plan: Plan, task: Task, p: Progress)
    requires (task.Fetching? || task.Kube?) && KeepsTransport(plan, p)
    ensures Conserves(plan, task, p)
  {
  }

  lemma ConnectConserves(config: Config, plan: Plan)
    requires IsWellFormed(plan)
    ensures Conserves(plan, Pending, Advance(config, plan, Pending))
  {
  }

  /** One resource of those that are left is closed. */
  lemma ClosingOneConserves(plan: Plan, task: Task, remaining: seq<Resource>, p: Progress)
    requires remaining != [] && Owned(plan, task) == multiset(remaining)
    requires p.started == [] && p.closed == [remaining[0]]
    requires Owned(plan, p.task) + HandedOver(p.task) == multiset(remaining[1..])
    ensures Conserves(plan, task, p)
  {
    assert remaining == remaining[..1] + remaining[1..] && remaining[..1] == p.closed;
    assert multiset(remaining) == multiset(p.closed) + multiset(remaining[1..]);
  }

  lemma ClosingConserves(config: Config, plan: Plan, task: Task)
    requires IsWellFormed(plan) && IsOnPlan(config, plan, task) && task.Closing?
    ensures Conserves(plan, task, Advance(config, plan, task))
  {
    var p := Advance(config, plan, task);
    assert |task.remaining| == 1 ==> task.runtime.resources == [] && task.remaining[1..] == [];
    ClosingOneConserves(plan, task, task.remaining, p);
  }

  lemma UnwindingConserves(config: Config, plan: Plan, task: Task)
    requires IsWellFormed(plan) && IsOnPlan(config, plan, task) && task.Unwinding?
    ensures Conserves(plan, task, Advance(config, plan, task))
  {
    if |task.remaining| > 1 {
      ClosingOneConserves(plan, task, task.remaining, Advance(config, plan, task));
    }
  }

  lemma AdvanceConserves(config: Config, plan: Plan, task: Task)
    requires IsWellFormed(plan) && IsOnPlan(config, plan, task) && !IsOver(task)
    ensures Conserves(plan, task, Advance(config, plan, task))
  {
    match task
    case Pending => ConnectConserves(config, plan);
    case Forwarding(k) =>
      if k == |plan.node.handles| {
        ForwardsDoneConserves(config, plan, k);
      } else {
        ForwardingTakesForward(config, plan, k);
        TakingConserves(plan, k, Advance(config, plan, task));
      }
    case Closing(_, _) => ClosingConserves(config, plan, task);
    case Unwinding(_) => UnwindingConserves(config, plan, task);
    case Fetching =>
      FetchingKeepsTransport(config, plan);
      KeepingConserves(plan, task, Advance(config, plan, task));
    case Kube(_) =>
      KubeKeepsTransport(config, plan, task);
      KeepingConserves(plan, task, Advance(config, plan, task));
  }

  /** Resources of the node that the coroutine has not opened and may still open. */
  predicate IsUnopened(plan: Plan, task: Task, r: Resource) {
    && r.node == plan.node.name
    && match task
       case Pending => true
       case Forwarding(k) => r.Listener? && k <= |plan.node.handles| && r.handle in plan.node.handles[k..]
       case _ => false
  }

  /** At most one resource is opened, it was not open before, and nothing can be opened again. */
  ghost predicate OpensFresh(plan: Plan, task: Task, p: Progress) {
    && |p.started| <= 1
    && (forall r | r in p.started :: IsUnopened(plan, task, r) && !IsUnopened(plan, p.task, r))
    && (forall r :: IsUnopened(plan, p.task, r) ==> IsUnopened(plan, task, r))
  }

  /** A coroutine opens at most one resource at a time, and none twice. */
  lemma AdvanceOpensFresh(config: Config, plan: Plan, task: Task)
    requires IsWellFormed(plan) && IsOnPlan(config, plan, task) && !IsOver(task)
    ensures OpensFresh(plan, task, Advance(config, plan, task))
  {
    match task
    case Pending =>
    case Forwarding(k) =>
      if k < |plan.node.handles| {
        ForwardingTakesForward(config, plan, k);
        assert plan.node.handles[k..] == [plan.node.handles[k]] + plan.node.handles[k + 1..];
        assert plan.node.handles[k] !in plan.node.handles[k + 1..];
      }
    case Fetching => FetchingKeepsTransport(config, plan);
    case Kube(_) => KubeKeepsTransport(config, plan, task);
    case _ =>
  }

  lemma ThrowStaysOnPlan(config: Config, plan: Plan, task: Task, listening: bool)
    requires IsWellFormed(plan) && IsOnPlan(config, plan, task) && CanRaise(plan, task)
    ensures var next := Throw(plan, task, listening).task;
      IsOnPlan(config, plan, next) && (next.Unwinding? || next.Raised?)
  {
  }

  lemma ForwardThrowConserves(plan: Plan, k: nat, listening: bool)
    requires k < |plan.node.handles|
    ensures Conserves(plan, Forwarding(k), Throw(plan, Forwarding(k), listening))
  {
    TransportGrows(plan.node, k);
  }

  /** All else that raises only changes its name. */
  lemma KeepingAllConserves(plan: Plan, task: Task, p: Progress)
    requires p.started == [] && p.closed == [] && p.task.Raised? && multiset(p.task.kept) == Owned(plan, task)
    ensures Conserves(plan, task, p)
  {
  }

  /** An unlisted error neither loses nor closes anything. */
  lemma ThrowConserves(plan: Plan, task: Task, listening: bool)
    requires CanRaise(plan, task)
    ensures Conserves(plan, task, Throw(plan, task, listening))
  {
    if task.Forwarding? {
      ForwardThrowConserves(plan, task.next, listening);
    } else {
      KeepingAllConserves(plan, task, Throw(plan, task, listening));
    }
  }

  lemma ThrowOpensFresh(plan: Plan, task: Task, listening: bool)
    requires CanRaise(plan, task)
    ensures OpensFresh(plan, task, Throw(plan, task, listening))
  {
    if task.Forwarding? {
      assert plan.node.handles[task.next] in plan.node.handles[task.next..];
    }
  }

  /** How many more awaits the coroutine can meet at most. */
  function Left(plan: Plan, task: Task): nat {
    var n := |plan.node.handles|;
    match task
    case Pending => 2 * n + 6
    case Forwarding(k) => if k <= n then 2 * n + 5 - k else 0
    case Fetching => n + 4
    case Kube(_) => n + 3
    case Closing(remaining, _) => |remaining|
    case Done(_) => 0
    case Unwinding(remaining) => |remaining|
    case Raised(_) => 0
  }

  lemma AdvanceMakesProgress(config: Config, plan: Plan, task: Task)
    requires IsWellFormed(plan) && IsOnPlan(config, plan, task) && !IsOver(task)
    ensures Left(plan, Advance(config, plan, task).task) < Left(plan, task)
  {
  }
}
