/**
 _worker.py: what stays open after an error that `_start_one` does not list. gather passes the first
 such error on, stop_all closes what the runtimes hold by then, and the other coroutines go on
 meanwhile; whatever they own or finish from then on is closed by nobody before the session ends.
 */
module Faults {
  import opened Wrappers
  import opened Nodes
  import opened Manager
  import Forwards
  import Fetcher
  import Kubeconfig
  import KubeTargets

  /** An interleaving up to the moment at which gather ends, and what the coroutines do while stop_all closes. */
  datatype Course = Course(config: Config, plans: seq<Plan>, schedule: seq<Turn>, late: seq<Turn>)

  ghost predicate IsCourse(c: Course) {
    && IsSchema(c.plans) && IsSchedule(c.plans, c.schedule) && IsSchedule(c.plans, c.late)
    && IsOnPlans(c.config, c.plans, Manager.Initial(c.plans))
  }

  ghost function AtStop(c: Course): (s: State)
    requires IsCourse(c)
    ensures IsOnPlans(c.config, c.plans, s)
  {
    Manager.Run(c.config, c.plans, Manager.Initial(c.plans), c.schedule)
  }

  /** When the session is given back. */
  ghost function AtEnd(c: Course): (s: State)
    requires IsCourse(c)
    ensures IsOnPlans(c.config, c.plans, s)
  {
    Manager.Run(c.config, c.plans, Stop(AtStop(c)), c.late)
  }

  ghost function LeftOpen(c: Course): multiset<Resource>
    requires IsCourse(c)
  {
    AtEnd(c).started - AtEnd(c).closed
  }

  /**
   A coroutine leaves something open if it is still suspended past its connection, if it raised
   past its connection, or if it succeeded too late for stop_all.
   */
  predicate Lingers(atStop: Task, atEnd: Task) {
    match atEnd
    case Pending => false
    case Done(runtime) => runtime.success && !atStop.Done?
    case Raised(kept) => kept != []
    case _ => true
  }

  ghost predicate NodeLingers(c: Course, i: nat)
    requires IsCourse(c) && i < |c.plans|
  {
    Lingers(AtStop(c).tasks[i], AtEnd(c).tasks[i])
  }

  // ---------------------------------------------------------------- the runtimes that come too late

  /** The manager's runtimes are those of the nodes that have succeeded since the stop. */
  ghost predicate HoldsLate(plans: seq<Plan>, atStop: seq<Task>, s: State)
    requires |atStop| == |s.tasks| == |plans|
  {
    && (forall i | 0 <= i < |plans| && s.tasks[i].Done? && s.tasks[i].runtime.success && !atStop[i].Done? ::
          s.tasks[i].runtime in s.runtimes)
    && (forall runtime | runtime in s.runtimes ::
          exists i :: 0 <= i < |plans| && s.tasks[i] == Done(runtime) && runtime.success && !atStop[i].Done?)
    && (forall i | 0 <= i < |plans| && atStop[i].Done? :: s.tasks[i].Done?)
  }

  lemma StepHoldsLate(config: Config, plans: seq<Plan>, atStop: seq<Task>, s: State, turn: Turn)
    requires IsSchema(plans) && IsOnPlans(config, plans, s) && turn.node < |plans| && |atStop| == |plans|
    requires HoldsLate(plans, atStop, s)
    ensures HoldsLate(plans, atStop, Step(config, plans, s, turn))
  {
    var k, s' := turn.node, Step(config, plans, s, turn);
    if CanTake(plans[k], s.tasks[k], turn) {
      assert !s.tasks[k].Done? && !atStop[k].Done?;
      forall runtime | runtime in s'.runtimes
        ensures exists i :: 0 <= i < |plans| && s'.tasks[i] == Done(runtime) && runtime.success && !atStop[i].Done?
      {
        if runtime in s.runtimes {
          var i :| 0 <= i < |plans| && s.tasks[i] == Done(runtime) && runtime.success && !atStop[i].Done?;
          assert s'.tasks[i] == Done(runtime);
        } else {
          assert s'.tasks[k] == Done(runtime);
        }
      }
    }
  }

  lemma {:induction false} RunHoldsLate(
      config: Config, plans: seq<Plan>, atStop: seq<Task>, s: State, schedule: seq<Turn>)
    requires IsSchema(plans) && IsOnPlans(config, plans, s) && IsSchedule(plans, schedule) && |atStop| == |plans|
    requires HoldsLate(plans, atStop, s)
    ensures HoldsLate(plans, atStop, Manager.Run(config, plans, s, schedule))
    decreases |schedule|
  {
    if schedule != [] {
      StepHoldsLate(config, plans, atStop, s, schedule[0]);
      StepStaysOnPlans(config, plans, s, schedule[0]);
      RunHoldsLate(config, plans, atStop, Step(config, plans, s, schedule[0]), schedule[1..]);
    }
  }

  // ---------------------------------------------------------------- who has a resource

  lemma {:induction false} SumHas(parts: seq<multiset<Resource>>, r: Resource) returns (i: nat)
    requires r in Sum(parts)
    ensures i < |parts| && r in parts[i]
  {
    var k := |parts| - 1;
    if r in parts[k] {
      i := k;
    } else {
      i := SumHas(parts[..k], r);
    }
  }

  lemma {:induction false} HeldHas(runtimes: seq<Runtime>, r: Resource) returns (runtime: Runtime)
    requires r in Held(runtimes)
    ensures runtime in runtimes && r in runtime.resources
  {
    var k := |runtimes| - 1;
    if r in runtimes[k].resources {
      runtime := runtimes[k];
    } else {
      runtime := HeldHas(runtimes[..k], r);
    }
  }

  lemma {:induction false} HeldCovers(runtimes: seq<Runtime>, runtime: Runtime, r: Resource)
    requires runtime in runtimes && r in runtime.resources
    ensures r in Held(runtimes)
  {
    var k := |runtimes| - 1;
    if runtimes[k] != runtime {
      assert runtime in runtimes[..k];
      HeldCovers(runtimes[..k], runtime, r);
    }
  }

  /** A successful runtime has its node's connection, and nothing of other nodes. */
  lemma SuccessHas(config: Config, plan: Plan, runtime: Runtime)
    requires IsWellFormed(plan) && runtime == Outcome(config, plan) && runtime.success
    ensures EndsInConnection(plan.node, runtime.resources)
  {
    assert runtime.resources == Transport(plan.node, |plan.node.handles|);
  }

  /** A coroutine owns its node's connection, and nothing of other nodes, or it owns nothing. */
  lemma OwnedHas(config: Config, plan: Plan, task: Task)
    requires IsWellFormed(plan) && IsOnPlan(config, plan, task)
    ensures if task.Pending? || task.Done? || task == Raised([]) then Owned(plan, task) == multiset{}
            else Connection(plan.node.name) in Owned(plan, task)
    ensures forall r | r in Owned(plan, task) :: r.node == plan.node.name
  {
    var n := |plan.node.handles|;
    match task
    case Forwarding(k) => LastIsIn(plan.node, Transport(plan.node, k));
    case Fetching => LastIsIn(plan.node, Transport(plan.node, n));
    case Kube(_) => LastIsIn(plan.node, Transport(plan.node, n));
    case Closing(remaining, _) => LastIsIn(plan.node, remaining);
    case Unwinding(remaining) => LastIsIn(plan.node, remaining);
    case Raised(kept) =>
      if kept != [] {
        LastIsIn(plan.node, kept);
      }
    case _ =>
  }

  lemma LastIsIn(node: Node, resources: seq<Resource>)
    requires EndsInConnection(node, resources)
    ensures Connection(node.name) in multiset(resources)
    ensures forall r | r in multiset(resources) :: r.node == node.name
  {
    assert resources[|resources| - 1] in multiset(resources);
  }

  // ---------------------------------------------------------------- exactly what stays open

  lemma EndIsBalanced(c: Course)
    requires IsCourse(c)
    ensures Conserved(c.plans, AtEnd(c)) && HoldsLate(c.plans, AtStop(c).tasks, AtEnd(c))
    ensures LeftOpen(c) == InProgress(c.plans, AtEnd(c).tasks) + Held(AtEnd(c).runtimes)
  {
    InitialConserves(c.config, c.plans);
    RunConserves(c.config, c.plans, Manager.Initial(c.plans), c.schedule);
    StopConserves(c.plans, AtStop(c));
    RunConserves(c.config, c.plans, Stop(AtStop(c)), c.late);
    RunHoldsLate(c.config, c.plans, AtStop(c).tasks, Stop(AtStop(c)), c.late);
  }

  lemma LingeringIsOpen(c: Course, i: nat)
    requires IsCourse(c) && i < |c.plans| && NodeLingers(c, i)
    ensures Connection(c.plans[i].node.name) in LeftOpen(c)
  {
    EndIsBalanced(c);
    var s, plan := AtEnd(c), c.plans[i];
    var task := s.tasks[i];
    if task.Done? {
      SuccessHas(c.config, plan, task.runtime);
      LastIsIn(plan.node, task.runtime.resources);
      HeldCovers(s.runtimes, task.runtime, Connection(plan.node.name));
    } else {
      OwnedHas(c.config, plan, task);
      SumCovers(Parts(c.plans, s.tasks), i);
      assert Parts(c.plans, s.tasks)[i] == Owned(plan, task);
    }
  }

  lemma HeldIsLingering(c: Course, r: Resource) returns (i: nat)
    requires IsCourse(c) && HoldsLate(c.plans, AtStop(c).tasks, AtEnd(c)) && r in Held(AtEnd(c).runtimes)
    ensures i < |c.plans| && c.plans[i].node.name == r.node && NodeLingers(c, i)
  {
    var runtime := HeldHas(AtEnd(c).runtimes, r);
    i :| 0 <= i < |c.plans| && AtEnd(c).tasks[i] == Done(runtime) && runtime.success && !AtStop(c).tasks[i].Done?;
    SuccessHas(c.config, c.plans[i], runtime);
    LastIsIn(c.plans[i].node, runtime.resources);
  }

  lemma OwnedIsLingering(c: Course, r: Resource) returns (i: nat)
    requires IsCourse(c) && r in InProgress(c.plans, AtEnd(c).tasks)
    ensures i < |c.plans| && c.plans[i].node.name == r.node && NodeLingers(c, i)
  {
    i := SumHas(Parts(c.plans, AtEnd(c).tasks), r);
    OwnedHas(c.config, c.plans[i], AtEnd(c).tasks[i]);
  }

  lemma OpenIsLingering(c: Course, r: Resource) returns (i: nat)
    requires IsCourse(c) && r in LeftOpen(c)
    ensures i < |c.plans| && c.plans[i].node.name == r.node && NodeLingers(c, i)
  {
    EndIsBalanced(c);
    if r in Held(AtEnd(c).runtimes) {
      i := HeldIsLingering(c, r);
    } else {
      i := OwnedIsLingering(c, r);
    }
  }

  lemma NamesAreDistinct(plans: seq<Plan>, i: nat, j: nat)
    requires IsSchema(plans) && i < |plans| && j < |plans| && plans[i].node.name == plans[j].node.name
    ensures i == j
  {
  }

  /** A node's connection stays open exactly if its coroutine lingers. */
  lemma NodeStaysOpenExactlyIf(c: Course, i: nat)
    requires IsCourse(c) && i < |c.plans|
    ensures Connection(c.plans[i].node.name) in LeftOpen(c) <==> NodeLingers(c, i)
  {
    var name := c.plans[i].node.name;
    if NodeLingers(c, i) {
      LingeringIsOpen(c, i);
    } else if Connection(name) in LeftOpen(c) {
      var j := OpenIsLingering(c, Connection(name));
      NamesAreDistinct(c.plans, i, j);
    }
  }

  /**
   Nothing at all stays open exactly if no coroutine lingers: each was done before the stop, has
   failed, has raised while it was connecting, or has not begun.
   */
  lemma NothingStaysOpenExactlyIf(c: Course)
    requires IsCourse(c)
    ensures LeftOpen(c) == multiset{} <==> forall i | 0 <= i < |c.plans| :: !NodeLingers(c, i)
  {
    if LeftOpen(c) == multiset{} {
      forall i | 0 <= i < |c.plans|
        ensures !NodeLingers(c, i)
      {
        if NodeLingers(c, i) {
          LingeringIsOpen(c, i);
        }
      }
    } else {
      var r :| r in LeftOpen(c);
      var j := OpenIsLingering(c, r);
    }
  }

  /** Until it has connected, and if it raised while it was connecting, a node has no connection to close. */
  ghost predicate ConnectsOnce(plans: seq<Plan>, s: State, i: nat)
    requires |s.tasks| == |plans| && i < |plans|
  {
    s.tasks[i].Pending? || s.tasks[i] == Raised([]) ==> s.started[Connection(plans[i].node.name)] == 0
  }

  lemma TakesConnection(config: Config, plan: Plan, task: Task, turn: Turn)
    requires IsWellFormed(plan) && IsOnPlan(config, plan, task) && CanTake(plan, task, turn)
    ensures var p := Take(config, plan, task, turn);
      && !p.task.Pending?
      && (p.task == Raised([]) ==> task.Pending? && p.started == [])
      && (forall r | r in p.started :: r.node == plan.node.name && (r.Connection? ==> task.Pending?))
  {
    match turn
    case Resume(_) => AdvanceOpensFresh(config, plan, task);
    case Raise(_, listening) => ThrowOpensFresh(plan, task, listening);
  }

  lemma StepConnectsOnce(config: Config, plans: seq<Plan>, s: State, turn: Turn, i: nat)
    requires IsSchema(plans) && IsOnPlans(config, plans, s) && turn.node < |plans| && i < |plans|
    requires ConnectsOnce(plans, s, i)
    ensures ConnectsOnce(plans, Step(config, plans, s, turn), i)
  {
    var k := turn.node;
    if CanTake(plans[k], s.tasks[k], turn) {
      TakesConnection(config, plans[k], s.tasks[k], turn);
      var p := Take(config, plans[k], s.tasks[k], turn);
      if k != i {
        assert plans[k].node.name != plans[i].node.name;
        assert Connection(plans[i].node.name) !in p.started;
      }
    }
  }

  lemma {:induction false} RunConnectsOnce(config: Config, plans: seq<Plan>, s: State, schedule: seq<Turn>, i: nat)
    requires IsSchema(plans) && IsOnPlans(config, plans, s) && IsSchedule(plans, schedule) && i < |plans|
    requires ConnectsOnce(plans, s, i)
    ensures ConnectsOnce(plans, Manager.Run(config, plans, s, schedule), i)
    decreases |schedule|
  {
    if schedule != [] {
      StepConnectsOnce(config, plans, s, schedule[0], i);
      StepStaysOnPlans(config, plans, s, schedule[0]);
      RunConnectsOnce(config, plans, Step(config, plans, s, schedule[0]), schedule[1..], i);
    }
  }

  /** A node that has raised leaves its connection open whenever it had got one. */
  lemma RaisedLeavesConnection(c: Course, i: nat)
    requires IsCourse(c) && i < |c.plans| && AtEnd(c).tasks[i].Raised?
    ensures var r := Connection(c.plans[i].node.name); r in LeftOpen(c) <==> r in AtEnd(c).started
  {
    RunConnectsOnce(c.config, c.plans, Manager.Initial(c.plans), c.schedule, i);
    RunConnectsOnce(c.config, c.plans, Stop(AtStop(c)), c.late, i);
    NodeStaysOpenExactlyIf(c, i);
  }

  // ---------------------------------------------------------------- an input

  /** One node with one kube target. */
  function OneKubeNode(): Plan {
    Plan(
      Node("n", true, [], [], [KubeTargets.KubeTarget("k", None, true, true)]),
      Fate(None, [], Fetcher.Serves(None), [],
           [KubeTargets.Answer(KubeTargets.Document(Kubeconfig.UnverifiedDoc()), Some("h"), Ok(1), Err(""))]))
  }

  /** It connects, has no forwards, and raises at its kube targets. */
  function RaisingAtKube(config: Config): Course {
    Course(config, [OneKubeNode()], [Resume(0), Resume(0), Raise(0, false)], [])
  }

  lemma KubeNodeMoves(config: Config)
    ensures IsWellFormed(OneKubeNode()) && IsOnPlan(config, OneKubeNode(), Forwarding(0))
    ensures Advance(config, OneKubeNode(), Pending) == Progress(Forwarding(0), [Connection("n")], [])
    ensures Advance(config, OneKubeNode(), Forwarding(0)) == Progress(Kube(map[]), [], [])
    ensures Throw(OneKubeNode(), Kube(map[]), false) == Progress(Raised([Connection("n")]), [], [])
  {
    var plan := OneKubeNode();
    assert Fetched(config, plan) == map[] && FailedFiles(config, plan) == [];
    assert Transport(plan.node, 0) == [Connection("n")];
  }

  lemma RunThree(config: Config, plans: seq<Plan>, s: State, a: Turn, b: Turn, c: Turn)
    requires IsSchema(plans) && IsOnPlans(config, plans, s) && IsSchedule(plans, [a, b, c])
    ensures a.node < |plans| && IsOnPlans(config, plans, Step(config, plans, s, a))
    ensures Manager.Run(config, plans, s, [a, b, c])
            == Manager.Run(config, plans, Step(config, plans, s, a), [b, c])
    ensures var s1 := Step(config, plans, s, a);
      && b.node < |plans| && IsOnPlans(config, plans, Step(config, plans, s1, b))
      && Manager.Run(config, plans, s1, [b, c]) == Manager.Run(config, plans, Step(config, plans, s1, b), [c])
  {
    assert [a, b, c][0] == a && [a, b, c][1] == b && [a, b, c][1..] == [b, c] && [b, c][1..] == [c];
    StepStaysOnPlans(config, plans, s, a);
    StepStaysOnPlans(config, plans, Step(config, plans, s, a), b);
  }

  /** The whole start with this one coroutine, its connection open. */
  function OneTask(task: Task): State {
    State([task], [], multiset{Connection("n")}, multiset{})
  }

  lemma KubeNodeConnects(config: Config)
    ensures IsSchema([OneKubeNode()]) && IsOnPlans(config, [OneKubeNode()], Manager.Initial([OneKubeNode()]))
    ensures IsOnPlans(config, [OneKubeNode()], OneTask(Forwarding(0)))
    ensures Step(config, [OneKubeNode()], Manager.Initial([OneKubeNode()]), Resume(0)) == OneTask(Forwarding(0))
  {
    KubeNodeMoves(config);
  }

  lemma KubeNodeGoesOn(config: Config)
    ensures IsSchema([OneKubeNode()]) && IsOnPlans(config, [OneKubeNode()], OneTask(Forwarding(0)))
    ensures IsOnPlans(config, [OneKubeNode()], OneTask(Kube(map[])))
    ensures Step(config, [OneKubeNode()], OneTask(Forwarding(0)), Resume(0)) == OneTask(Kube(map[]))
  {
    KubeNodeMoves(config);
    StepStaysOnPlans(config, [OneKubeNode()], OneTask(Forwarding(0)), Resume(0));
  }

  lemma KubeNodeRaises(config: Config)
    requires IsSchema([OneKubeNode()]) && IsOnPlans(config, [OneKubeNode()], OneTask(Kube(map[])))
    ensures Step(config, [OneKubeNode()], OneTask(Kube(map[])), Raise(0, false))
            == OneTask(Raised([Connection("n")]))
  {
    KubeNodeMoves(config);
  }

  lemma RaisedStaysOpen(c: Course)
    requires IsCourse(c) && AtStop(c) == OneTask(Raised([Connection("n")])) && c.late == []
    ensures AnyRaised(AtStop(c).tasks) && LeftOpen(c) == multiset{Connection("n")}
  {
    assert AtStop(c).tasks[0].Raised? && Held([]) == multiset{};
    assert AtEnd(c) == Stop(AtStop(c));
  }

  lemma KubeNodeStops(config: Config)
    ensures IsCourse(RaisingAtKube(config))
    ensures AtStop(RaisingAtKube(config)) == OneTask(Raised([Connection("n")]))
  {
    var plans, s0 := [OneKubeNode()], Manager.Initial([OneKubeNode()]);
    KubeNodeConnects(config);
    KubeNodeGoesOn(config);
    KubeNodeRaises(config);
    RunThree(config, plans, s0, Resume(0), Resume(0), Raise(0, false));
    assert [Raise(0, false)][1..] == [];
  }

  /**
   A node that raises at its kube targets, say because a kubeconfig could not be written into a
   tunnel-data/ that a stop has removed, keeps its connection open.
   */
  lemma RaisingKeepsConnection(config: Config)
    ensures var c := RaisingAtKube(config);
      && IsCourse(c) && AtStop(c) == OneTask(Raised([Connection("n")])) && AnyRaised(AtStop(c).tasks)
      && LeftOpen(c) == multiset{Connection("n")}
  {
    KubeNodeStops(config);
    RaisedStaysOpen(RaisingAtKube(config));
  }
}
