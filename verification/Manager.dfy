/**
 manager.py: all nodes of a schema started concurrently, and the runtimes the manager keeps. A
 schedule says which node's coroutine runs next, and whether what it awaited raises an error that it
 does not list; asyncio may pick any coroutine, and any awaited call may raise.
 */
module Manager {
  import opened Nodes

  /** `runtimes` grows in completion order; `started` and `closed` count what happened to each resource. */
  datatype State = State(
    tasks: seq<Task>,
    runtimes: seq<Runtime>,
    started: multiset<Resource>,
    closed: multiset<Resource>)

  ghost predicate IsSchema(plans: seq<Plan>) {
    && (forall i | 0 <= i < |plans| :: IsWellFormed(plans[i]))
    && (forall i, j | 0 <= i < j < |plans| :: plans[i].node.name != plans[j].node.name)
  }

  function Initial(plans: seq<Plan>): State {
    State(seq(|plans|, i => Pending), [], multiset{}, multiset{})
  }

  ghost predicate IsOnPlans(config: Config, plans: seq<Plan>, s: State)
    requires IsSchema(plans)
  {
    |s.tasks| == |plans| && forall i | 0 <= i < |plans| :: IsOnPlan(config, plans[i], s.tasks[i])
  }

  /** One coroutine runs up to its next await, or meets an unlisted error where it is. */
  datatype Turn = Resume(node: nat) | Raise(node: nat, listening: bool)

  predicate CanTake(plan: Plan, task: Task, turn: Turn) {
    if turn.Resume? then !IsOver(task) else CanRaise(plan, task)
  }

  function Take(config: Config, plan: Plan, task: Task, turn: Turn): Progress
    requires IsWellFormed(plan) && IsOnPlan(config, plan, task) && CanTake(plan, task, turn)
  {
    match turn
    case Resume(_) => Advance(config, plan, task)
    case Raise(_, listening) => Throw(plan, task, listening)
  }

  /** One turn; a coroutine that is over does nothing. */
  function Step(config: Config, plans: seq<Plan>, s: State, turn: Turn): State
    requires IsSchema(plans) && IsOnPlans(config, plans, s) && turn.node < |plans|
  {
    var i := turn.node;
    if !CanTake(plans[i], s.tasks[i], turn) then s
    else
      var p := Take(config, plans[i], s.tasks[i], turn);
      State(
        s.tasks[i := p.task],
        if p.task.Done? && p.task.runtime.success then s.runtimes + [p.task.runtime] else s.runtimes,
        s.started + multiset(p.started),
        s.closed + multiset(p.closed))
  }

  lemma TakeStaysOnPlan(config: Config, plan: Plan, task: Task, turn: Turn)
    requires IsWellFormed(plan) && IsOnPlan(config, plan, task) && CanTake(plan, task, turn)
    ensures IsOnPlan(config, plan, Take(config, plan, task, turn).task)
  {
    match turn
    case Resume(_) => AdvanceStaysOnPlan(config, plan, task);
    case Raise(_, listening) => ThrowStaysOnPlan(config, plan, task, listening);
  }

  lemma TakeConserves(config: Config, plan: Plan, task: Task, turn: Turn)
    requires IsWellFormed(plan) && IsOnPlan(config, plan, task) && CanTake(plan, task, turn)
    ensures Conserves(plan, task, Take(config, plan, task, turn))
    ensures OpensFresh(plan, task, Take(config, plan, task, turn))
  {
    match turn
    case Resume(_) =>
      AdvanceConserves(config, plan, task);
      AdvanceOpensFresh(config, plan, task);
    case Raise(_, listening) =>
      ThrowConserves(plan, task, listening);
      ThrowOpensFresh(plan, task, listening);
  }

  lemma StepStaysOnPlans(config: Config, plans: seq<Plan>, s: State, turn: Turn)
    requires IsSchema(plans) && IsOnPlans(config, plans, s) && turn.node < |plans|
    ensures IsOnPlans(config, plans, Step(config, plans, s, turn))
  {
    if CanTake(plans[turn.node], s.tasks[turn.node], turn) {
      TakeStaysOnPlan(config, plans[turn.node], s.tasks[turn.node], turn);
    }
  }

  predicate IsSchedule(plans: seq<Plan>, schedule: seq<Turn>) {
    forall k | 0 <= k < |schedule| :: schedule[k].node < |plans|
  }

  /** The state after a schedule. */
  ghost function Run(config: Config, plans: seq<Plan>, s: State, schedule: seq<Turn>): (s': State)
    requires IsSchema(plans) && IsOnPlans(config, plans, s) && IsSchedule(plans, schedule)
    ensures IsOnPlans(config, plans, s')
    decreases |schedule|
  {
    if schedule == [] then s
    else
      StepStaysOnPlans(config, plans, s, schedule[0]);
      Run(config, plans, Step(config, plans, s, schedule[0]), schedule[1..])
  }

  predicate AllDone(tasks: seq<Task>) {
    forall i | 0 <= i < |tasks| :: tasks[i].Done?
  }

  predicate AnyRaised(tasks: seq<Task>) {
    exists i :: 0 <= i < |tasks| && tasks[i].Raised?
  }

  /** stop_all: takes the list, clears it and closes every transport in it. */
  function Stop(s: State): State {
    s.(runtimes := [], closed := s.closed + Held(s.runtimes))
  }

  // ---------------------------------------------------------------- conservation

  function Held(runtimes: seq<Runtime>): multiset<Resource> {
    if runtimes == [] then multiset{}
    else Held(runtimes[..|runtimes| - 1]) + multiset(runtimes[|runtimes| - 1].resources)
  }

  function Sum(parts: seq<multiset<Resource>>): multiset<Resource> {
    if parts == [] then multiset{} else Sum(parts[..|parts| - 1]) + parts[|parts| - 1]
  }

  lemma {:induction false} SumUpdate(parts: seq<multiset<Resource>>, i: nat, part: multiset<Resource>)
    requires i < |parts|
    ensures Sum(parts[i := part]) + parts[i] == Sum(parts) + part
  {
    var k := |parts| - 1;
    if i < k {
      SumUpdate(parts[..k], i, part);
      assert parts[i := part][..k] == parts[..k][i := part];
      forall r: Resource
        ensures (Sum(parts[i := part]) + parts[i])[r] == (Sum(parts) + part)[r]
      {
        assert (Sum(parts[..k][i := part]) + parts[..k][i])[r] == (Sum(parts[..k]) + part)[r];
      }
    } else {
      assert parts[i := part][..k] == parts[..k];
    }
  }

  function Parts(plans: seq<Plan>, tasks: seq<Task>): seq<multiset<Resource>>
    requires |tasks| == |plans|
  {
    seq(|plans|, i requires 0 <= i < |plans| => Owned(plans[i], tasks[i]))
  }

  /** What the coroutines own together: the unfinished ones, and what those that raised leave open. */
  function InProgress(plans: seq<Plan>, tasks: seq<Task>): multiset<Resource>
    requires |tasks| == |plans|
  {
    Sum(Parts(plans, tasks))
  }

  lemma InProgressUpdate(plans: seq<Plan>, tasks: seq<Task>, i: nat, task: Task)
    requires |tasks| == |plans| && i < |plans|
    ensures InProgress(plans, tasks[i := task]) + Owned(plans[i], tasks[i])
            == InProgress(plans, tasks) + Owned(plans[i], task)
  {
    SumUpdate(Parts(plans, tasks), i, Owned(plans[i], task));
    assert Parts(plans, tasks[i := task]) == Parts(plans, tasks)[i := Owned(plans[i], task)];
  }

  /**
   Whatever was opened is owned by exactly one coroutine that is unfinished or has raised, or held by
   exactly one runtime of the manager, or closed, and nothing is ever opened twice.
   */
  ghost predicate Conserved(plans: seq<Plan>, s: State)
    requires |s.tasks| == |plans|
  {
    && s.started == InProgress(plans, s.tasks) + Held(s.runtimes) + s.closed
    && (forall r :: s.started[r] <= 1)
    && (forall i, r | 0 <= i < |plans| && IsUnopened(plans[i], s.tasks[i], r) :: s.started[r] == 0)
  }

  /** The balance of one step, away from what coroutines do. */
  lemma StepBalances(plans: seq<Plan>, s: State, i: nat, p: Progress)
    requires |s.tasks| == |plans| && i < |plans| && Conserves(plans[i], s.tasks[i], p)
    requires s.started == InProgress(plans, s.tasks) + Held(s.runtimes) + s.closed
    ensures s.started + multiset(p.started)
            == InProgress(plans, s.tasks[i := p.task]) + (Held(s.runtimes) + HandedOver(p.task))
               + (s.closed + multiset(p.closed))
  {
    InProgressUpdate(plans, s.tasks, i, p.task);
    var before, after := InProgress(plans, s.tasks), InProgress(plans, s.tasks[i := p.task]);
    var had, has := Owned(plans[i], s.tasks[i]), Owned(plans[i], p.task);
    forall r: Resource
      ensures (s.started + multiset(p.started))[r]
              == (after + (Held(s.runtimes) + HandedOver(p.task)) + (s.closed + multiset(p.closed)))[r]
    {
      assert (after + had)[r] == (before + has)[r];
      assert (had + multiset(p.started))[r] == (has + HandedOver(p.task) + multiset(p.closed))[r];
    }
  }

  lemma HeldGrows(runtimes: seq<Runtime>, runtime: Runtime)
    ensures Held(runtimes + [runtime]) == Held(runtimes) + multiset(runtime.resources)
  {
  }

  lemma StepKeepsBalance(config: Config, plans: seq<Plan>, s: State, turn: Turn)
    requires IsSchema(plans) && IsOnPlans(config, plans, s) && turn.node < |plans|
    requires CanTake(plans[turn.node], s.tasks[turn.node], turn)
    requires s.started == InProgress(plans, s.tasks) + Held(s.runtimes) + s.closed
    ensures var s' := Step(config, plans, s, turn);
      s'.started == InProgress(plans, s'.tasks) + Held(s'.runtimes) + s'.closed
  {
    var i := turn.node;
    var p := Take(config, plans[i], s.tasks[i], turn);
    TakeConserves(config, plans[i], s.tasks[i], turn);
    TakeStaysOnPlan(config, plans[i], s.tasks[i], turn);
    StepBalances(plans, s, i, p);
    if p.task.Done? {
      FailureHoldsNothing(config, plans[i], p.task.runtime);
      HeldGrows(s.runtimes, p.task.runtime);
    }
  }

  lemma FailureHoldsNothing(config: Config, plan: Plan, runtime: Runtime)
    requires IsWellFormed(plan) && runtime == Outcome(config, plan)
    ensures !runtime.success ==> runtime.resources == []
  {
  }

  lemma StepOpensOnce(config: Config, plans: seq<Plan>, s: State, turn: Turn)
    requires IsSchema(plans) && IsOnPlans(config, plans, s) && turn.node < |plans|
    requires CanTake(plans[turn.node], s.tasks[turn.node], turn) && Conserved(plans, s)
    ensures var s' := Step(config, plans, s, turn);
      && (forall r :: s'.started[r] <= 1)
      && (forall j, r | 0 <= j < |plans| && IsUnopened(plans[j], s'.tasks[j], r) :: s'.started[r] == 0)
  {
    var i := turn.node;
    var p, s' := Take(config, plans[i], s.tasks[i], turn), Step(config, plans, s, turn);
    TakeConserves(config, plans[i], s.tasks[i], turn);
    forall r: Resource
      ensures s'.started[r] <= 1
      ensures r !in p.started ==> s'.started[r] == s.started[r]
    {
      assert r in p.started ==> IsUnopened(plans[i], s.tasks[i], r);
      assert multiset(p.started)[r] <= |p.started|;
    }
    forall j, r | 0 <= j < |plans| && IsUnopened(plans[j], s'.tasks[j], r)
      ensures s'.started[r] == 0
    {
      assert IsUnopened(plans[j], s.tasks[j], r);
      assert r.node == plans[j].node.name;
    }
  }

  lemma StepConserves(config: Config, plans: seq<Plan>, s: State, turn: Turn)
    requires IsSchema(plans) && IsOnPlans(config, plans, s) && turn.node < |plans| && Conserved(plans, s)
    ensures Conserved(plans, Step(config, plans, s, turn))
  {
    if CanTake(plans[turn.node], s.tasks[turn.node], turn) {
      StepKeepsBalance(config, plans, s, turn);
      StepOpensOnce(config, plans, s, turn);
    }
  }

  lemma {:induction false} RunConserves(config: Config, plans: seq<Plan>, s: State, schedule: seq<Turn>)
    requires IsSchema(plans) && IsOnPlans(config, plans, s) && IsSchedule(plans, schedule)
    requires Conserved(plans, s)
    ensures Conserved(plans, Run(config, plans, s, schedule))
    decreases |schedule|
  {
    if schedule != [] {
      StepConserves(config, plans, s, schedule[0]);
      StepStaysOnPlans(config, plans, s, schedule[0]);
      RunConserves(config, plans, Step(config, plans, s, schedule[0]), schedule[1..]);
    }
  }

  /** A stop in the middle of a start moves what the runtimes hold to what is closed. */
  lemma StopConserves(plans: seq<Plan>, s: State)
    requires |s.tasks| == |plans| && Conserved(plans, s)
    ensures Conserved(plans, Stop(s))
  {
    assert Held([]) == multiset{};
  }

  lemma {:induction false} SumCovers(parts: seq<multiset<Resource>>, i: nat)
    requires i < |parts|
    ensures parts[i] <= Sum(parts)
  {
    if i < |parts| - 1 {
      SumCovers(parts[..|parts| - 1], i);
    }
  }

  lemma {:induction false} SumOfNothing(parts: seq<multiset<Resource>>)
    requires forall i | 0 <= i < |parts| :: parts[i] == multiset{}
    ensures Sum(parts) == multiset{}
  {
    if parts != [] {
      SumOfNothing(parts[..|parts| - 1]);
    }
  }

  lemma InitialConserves(config: Config, plans: seq<Plan>)
    requires IsSchema(plans)
    ensures IsOnPlans(config, plans, Initial(plans)) && Conserved(plans, Initial(plans))
  {
    SumOfNothing(Parts(plans, Initial(plans).tasks));
  }

  /**
   At every moment of every interleaving, whatever errors the coroutines meet, a resource that was
   opened is in exactly one place: in progress, held by one successful runtime, or closed. One that
   was not opened is in none.
   */
  lemma EveryResourceHasOnePlace(config: Config, plans: seq<Plan>, schedule: seq<Turn>, r: Resource)
    requires IsSchema(plans) && IsSchedule(plans, schedule)
    ensures IsOnPlans(config, plans, Initial(plans))
    ensures var s := Run(config, plans, Initial(plans), schedule);
      && InProgress(plans, s.tasks)[r] + Held(s.runtimes)[r] + s.closed[r] == s.started[r]
      && s.started[r] <= 1
  {
    InitialConserves(config, plans);
    RunConserves(config, plans, Initial(plans), schedule);
  }

  lemma NothingInProgress(plans: seq<Plan>, s: State)
    requires |s.tasks| == |plans| && AllDone(s.tasks)
    ensures InProgress(plans, s.tasks) == multiset{}
  {
    SumOfNothing(Parts(plans, s.tasks));
  }

  lemma DoneIsClosed(plans: seq<Plan>, s: State)
    requires |s.tasks| == |plans| && AllDone(s.tasks) && Conserved(plans, s)
    ensures s.closed + Held(s.runtimes) == s.started && Stop(s).closed == s.started && Stop(Stop(s)) == Stop(s)
  {
    NothingInProgress(plans, s);
    assert Held([]) == multiset{};
  }

  /**
   After a complete run and a stop, once or twice, everything that was opened has been closed
   exactly once; before the stop, this holds of everything but what successful runtimes hold.
   */
  lemma EverythingIsClosedOnce(config: Config, plans: seq<Plan>, schedule: seq<Turn>, r: Resource)
    requires IsSchema(plans) && IsSchedule(plans, schedule) && IsOnPlans(config, plans, Initial(plans))
    requires AllDone(Run(config, plans, Initial(plans), schedule).tasks)
    ensures var s := Run(config, plans, Initial(plans), schedule);
      && s.closed[r] + Held(s.runtimes)[r] == s.started[r] && s.started[r] <= 1
      && Stop(s).closed[r] == s.started[r]
      && Stop(Stop(s)) == Stop(s)
  {
    InitialConserves(config, plans);
    RunConserves(config, plans, Initial(plans), schedule);
    DoneIsClosed(plans, Run(config, plans, Initial(plans), schedule));
  }

  // ---------------------------------------------------------------- the same result for every schedule

  function Outcomes(config: Config, plans: seq<Plan>): (outcomes: seq<Runtime>)
    requires IsSchema(plans)
    ensures |outcomes| == |plans|
  {
    seq(|plans|, i requires 0 <= i < |plans| => Outcome(config, plans[i]))
  }

  /** What gather returns, in schema order. */
  function Gathered(tasks: seq<Task>): (runtimes: seq<Runtime>)
    requires AllDone(tasks)
    ensures |runtimes| == |tasks|
  {
    seq(|tasks|, i requires 0 <= i < |tasks| => tasks[i].runtime)
  }

  /** Whatever the interleaving, a complete run gathers the outcomes of the fates, in schema order. */
  lemma ScheduleIndependence(config: Config, plans: seq<Plan>, schedule: seq<Turn>)
    requires IsSchema(plans) && IsSchedule(plans, schedule) && IsOnPlans(config, plans, Initial(plans))
    requires AllDone(Run(config, plans, Initial(plans), schedule).tasks)
    ensures Gathered(Run(config, plans, Initial(plans), schedule).tasks) == Outcomes(config, plans)
  {
    var s := Run(config, plans, Initial(plans), schedule);
    forall i | 0 <= i < |plans|
      ensures Gathered(s.tasks)[i] == Outcomes(config, plans)[i]
    {
      assert IsOnPlan(config, plans[i], s.tasks[i]);
    }
  }

  // ---------------------------------------------------------------- every start can finish

  function Total(parts: seq<nat>): nat {
    if parts == [] then 0 else Total(parts[..|parts| - 1]) + parts[|parts| - 1]
  }

  lemma {:induction false} TotalUpdate(parts: seq<nat>, i: nat, part: nat)
    requires i < |parts|
    ensures Total(parts[i := part]) + parts[i] == Total(parts) + part
  {
    var k := |parts| - 1;
    if i < k {
      TotalUpdate(parts[..k], i, part);
      assert parts[i := part][..k] == parts[..k][i := part];
    } else {
      assert parts[i := part][..k] == parts[..k];
    }
  }

  function LeftOver(plans: seq<Plan>, s: State): seq<nat>
    requires |s.tasks| == |plans|
  {
    seq(|plans|, i requires 0 <= i < |plans| => Left(plans[i], s.tasks[i]))
  }

  /** Running an unfinished node always brings the whole start closer to its end. */
  lemma StepMakesProgress(config: Config, plans: seq<Plan>, s: State, i: nat)
    requires IsSchema(plans) && IsOnPlans(config, plans, s) && i < |plans| && !IsOver(s.tasks[i])
    ensures var s' := Step(config, plans, s, Resume(i));
      |s'.tasks| == |plans| && Total(LeftOver(plans, s')) < Total(LeftOver(plans, s))
  {
    var p := Advance(config, plans[i], s.tasks[i]);
    AdvanceMakesProgress(config, plans[i], s.tasks[i]);
    TotalUpdate(LeftOver(plans, s), i, Left(plans[i], p.task));
    assert LeftOver(plans, Step(config, plans, s, Resume(i))) == LeftOver(plans, s)[i := Left(plans[i], p.task)];
  }

  /** It has met an unlisted error. */
  predicate HasRaised(task: Task) {
    task.Unwinding? || task.Raised?
  }

  /** From every reachable state some schedule completes the start; no interleaving gets stuck. */
  lemma {:induction false} EveryStartCanFinish(config: Config, plans: seq<Plan>, s: State)
    returns (schedule: seq<Turn>)
    requires IsSchema(plans) && IsOnPlans(config, plans, s)
    ensures IsSchedule(plans, schedule)
    ensures forall i | 0 <= i < |plans| ::
      var task := Run(config, plans, s, schedule).tasks[i];
      if HasRaised(s.tasks[i]) then task.Raised? else task.Done?
    decreases Total(LeftOver(plans, s))
  {
    if i :| 0 <= i < |plans| && !IsOver(s.tasks[i]) {
      StepStaysOnPlans(config, plans, s, Resume(i));
      StepMakesProgress(config, plans, s, i);
      var s' := Step(config, plans, s, Resume(i));
      AdvanceRaisesNothing(config, plans[i], s.tasks[i]);
      var rest := EveryStartCanFinish(config, plans, s');
      schedule := [Resume(i)] + rest;
      assert schedule[1..] == rest;
      assert forall j | 0 <= j < |plans| :: HasRaised(s'.tasks[j]) <==> HasRaised(s.tasks[j]);
    } else {
      schedule := [];
    }
  }

  lemma AdvanceRaisesNothing(config: Config, plan: Plan, task: Task)
    requires IsWellFormed(plan) && IsOnPlan(config, plan, task) && !IsOver(task)
    ensures HasRaised(Advance(config, plan, task).task) <==> HasRaised(task)
  {
  }
}
