/**
 _worker.py: the idle watchdog. It sleeps for a quarter of the timeout, but at least a second, and
 looks at the aggregate after each sleep; meanwhile hooks arrive, a signal may request the stop,
 and its coroutine may be cancelled.
 */
module Watchdog {
  import opened Activity

  /** How one sleep ends: cancelled, or over at a time, after these hooks and maybe a stop request. */
  datatype Sleep = Cancelled | Slept(at: real, hooks: seq<Hook>, stopRequested: bool)

  datatype Verdict =
    | Fired(at: real)
    | Returned
    | Asleep

  function PollInterval(timeout: nat): (poll: real)
    ensures timeout <= 4 ==> poll == 1.0
    ensures timeout >= 4 ==> 4.0 * poll == timeout as real
  {
    if timeout as real / 4.0 > 1.0 then timeout as real / 4.0 else 1.0
  }

  /** The watchdog's check at time `at`, after these hooks. */
  predicate Fires(born: real, hooks: seq<Hook>, at: real, timeout: nat) {
    Replay(born, hooks).count == 0 && at - Replay(born, hooks).last >= timeout as real
  }

  /** All hooks from before the watchdog and from its first k sleeps. */
  function HooksBy(before: seq<Hook>, sleeps: seq<Sleep>, k: nat): seq<Hook>
    requires k <= |sleeps|
  {
    if k == 0 then before
    else HooksBy(before, sleeps, k - 1) + if sleeps[k - 1].Slept? then sleeps[k - 1].hooks else []
  }

  /** The check after the k-th sleep finds the forwards idle for the whole timeout. */
  predicate FiresAfter(born: real, before: seq<Hook>, sleeps: seq<Sleep>, timeout: nat, k: nat)
    requires k < |sleeps|
  {
    sleeps[k].Slept? && Fires(born, HooksBy(before, sleeps, k + 1), sleeps[k].at, timeout)
  }

  /** When the k-th sleep begins: at the watchdog's start, or when the sleep before it was over. */
  function Begins(begin: real, sleeps: seq<Sleep>, k: nat): real
    requires k <= |sleeps|
  {
    if k == 0 then begin else if sleeps[k - 1].Slept? then sleeps[k - 1].at else begin
  }

  /** The k-th sleep lasts for a poll interval and at most `overrun` longer, and its hooks come while it lasts. */
  ghost predicate IsTimed(begin: real, sleeps: seq<Sleep>, k: nat, poll: real, overrun: real)
    requires k < |sleeps|
  {
    if sleeps[k].Cancelled? then k == |sleeps| - 1
    else
      var slept := sleeps[k].at - Begins(begin, sleeps, k);
      && poll <= slept <= poll + overrun
      && forall h | h in sleeps[k].hooks :: Begins(begin, sleeps, k) <= h.at <= sleeps[k].at
  }

  /** Hooks and sleeps in the order of time, from the birth of the aggregate on. */
  ghost predicate IsTimeline(
      born: real, begin: real, before: seq<Hook>, sleeps: seq<Sleep>, poll: real, overrun: real)
  {
    && poll >= 1.0
    && born <= begin && (forall h | h in before :: born <= h.at <= begin)
    && (forall k: nat | k < |sleeps| :: IsTimed(begin, sleeps, k, poll, overrun))
    && IsTimely(HooksBy(before, sleeps, |sleeps|))
  }

  lemma {:induction false} HooksAreInTime(
      born: real, begin: real, before: seq<Hook>, sleeps: seq<Sleep>, poll: real, overrun: real, k: nat)
    requires IsTimeline(born, begin, before, sleeps, poll, overrun) && k <= |sleeps|
    requires forall j | 0 <= j < k :: sleeps[j].Slept?
    ensures begin <= Begins(begin, sleeps, k)
    ensures forall h | h in HooksBy(before, sleeps, k) :: born <= h.at <= Begins(begin, sleeps, k)
  {
    if k > 0 {
      assert IsTimed(begin, sleeps, k - 1, poll, overrun);
      HooksAreInTime(born, begin, before, sleeps, poll, overrun, k - 1);
    }
  }

  lemma {:induction false} HooksByIsPrefix(before: seq<Hook>, sleeps: seq<Sleep>, k: nat, n: nat)
    requires k <= n <= |sleeps|
    ensures HooksBy(before, sleeps, k) <= HooksBy(before, sleeps, n)
    decreases n
  {
    if k < n {
      HooksByIsPrefix(before, sleeps, k, n - 1);
    }
  }

  lemma HooksAreTimely(before: seq<Hook>, sleeps: seq<Sleep>, k: nat)
    requires k <= |sleeps| && IsTimely(HooksBy(before, sleeps, |sleeps|))
    ensures IsTimely(HooksBy(before, sleeps, k))
  {
    HooksByIsPrefix(before, sleeps, k, |sleeps|);
    var some, all := HooksBy(before, sleeps, k), HooksBy(before, sleeps, |sleeps|);
    TimelyPrefix(all, |some|);
    assert all[..|some|] == some;
  }

  /** The hooks of one sleep, on trackers that the factory makes as they are needed. */
  method DeliverAll(trackers: Trackers, hooks: seq<Hook>)
    requires trackers.Valid()
    modifies trackers, trackers.aggregate, trackers.trackers
    ensures trackers.Valid() && trackers.hooks == old(trackers.hooks) + hooks
    ensures fresh(set t | t in trackers.trackers && t !in old(trackers.trackers))
  {
    for i := 0 to |hooks|
      invariant trackers.Valid() && trackers.hooks == old(trackers.hooks) + hooks[..i]
      invariant fresh(set t | t in trackers.trackers && t !in old(trackers.trackers))
    {
      while |trackers.trackers| <= hooks[i].id
        invariant trackers.Valid() && trackers.hooks == old(trackers.hooks) + hooks[..i]
        invariant fresh(set t | t in trackers.trackers && t !in old(trackers.trackers))
        decreases hooks[i].id - |trackers.trackers|
      {
        trackers.MakeTracker();
      }
      trackers.Deliver(hooks[i]);
    }
  }

  /** tracker.is_idle and tracker.seconds_since_activity >= timeout_seconds, at time `now`. */
  method IsDue(trackers: Trackers, now: real, timeout: nat) returns (due: bool)
    requires trackers.Valid()
    ensures due <==> Fires(trackers.born, trackers.hooks, now, timeout)
  {
    due := trackers.aggregate.activeCount == 0
           && now - trackers.aggregate.lastActivityAt >= timeout as real;
  }

  /** What one sleep brings, and the check after it. */
  method Poll(trackers: Trackers, timeout: nat, sleeps: seq<Sleep>, k: nat, ghost before: seq<Hook>)
    returns (due: bool)
    requires trackers.Valid() && k < |sleeps| && sleeps[k].Slept?
    requires trackers.hooks == HooksBy(before, sleeps, k)
    modifies trackers, trackers.aggregate, trackers.trackers
    ensures trackers.Valid() && trackers.hooks == HooksBy(before, sleeps, k + 1)
    ensures fresh(set t | t in trackers.trackers && t !in old(trackers.trackers))
    ensures due <==> FiresAfter(trackers.born, before, sleeps, timeout, k)
  {
    DeliverAll(trackers, sleeps[k].hooks);
    due := IsDue(trackers, sleeps[k].at, timeout);
  }

  lemma FiringIsSafe(
      born: real, begin: real, before: seq<Hook>, sleeps: seq<Sleep>, timeout: nat, poll: real, overrun: real, k: nat)
    requires IsTimeline(born, begin, before, sleeps, poll, overrun) && k < |sleeps|
    requires (forall j | 0 <= j <= k :: sleeps[j].Slept?) && FiresAfter(born, before, sleeps, timeout, k)
    ensures WasUnused(HooksBy(before, sleeps, k + 1), sleeps[k].at, timeout as real)
  {
    HooksAreInTime(born, begin, before, sleeps, poll, overrun, k + 1);
    HooksAreTimely(before, sleeps, k + 1);
    IdleForMeansUnused(born, HooksBy(before, sleeps, k + 1), sleeps[k].at, timeout as real);
  }

  /** The first k sleeps are slept out, and no check after them fires. */
  ghost predicate SleepsOn(born: real, before: seq<Hook>, sleeps: seq<Sleep>, timeout: nat, k: nat)
    requires k <= |sleeps|
  {
    k == 0 ||
    (SleepsOn(born, before, sleeps, timeout, k - 1)
     && sleeps[k - 1].Slept? && !FiresAfter(born, before, sleeps, timeout, k - 1))
  }

  lemma {:induction false} SleepsOnThroughout(born: real, before: seq<Hook>, sleeps: seq<Sleep>, timeout: nat, k: nat)
    requires k <= |sleeps| && SleepsOn(born, before, sleeps, timeout, k)
    ensures forall j: nat | j < k :: sleeps[j].Slept? && !FiresAfter(born, before, sleeps, timeout, j)
  {
    if k > 0 {
      SleepsOnThroughout(born, before, sleeps, timeout, k - 1);
    }
  }

  /** How the loop ends: after a check that fires, when cancelled or asked to stop, or with the last sleep. */
  ghost predicate PollsUntil(
      born: real, before: seq<Hook>, sleeps: seq<Sleep>, timeout: nat, stopRequested: bool,
      verdict: Verdict, slept: nat)
  {
    && slept <= |sleeps|
    && match verdict
       case Fired(at) =>
         && 0 < slept && sleeps[slept - 1].Slept? && at == sleeps[slept - 1].at
         && SleepsOn(born, before, sleeps, timeout, slept - 1) && FiresAfter(born, before, sleeps, timeout, slept - 1)
       case Asleep => slept == |sleeps| && SleepsOn(born, before, sleeps, timeout, slept)
       case Returned =>
         if slept == 0 then stopRequested
         else if sleeps[slept - 1].Cancelled? then SleepsOn(born, before, sleeps, timeout, slept - 1)
         else sleeps[slept - 1].stopRequested && SleepsOn(born, before, sleeps, timeout, slept)
  }

  /** The loop: until a check fires, the stop is requested, it is cancelled, or the given sleeps are over. */
  method PollUntilDue(trackers: Trackers, timeout: nat, stopRequested: bool, sleeps: seq<Sleep>)
    returns (verdict: Verdict, ghost slept: nat)
    requires trackers.Valid()
    modifies trackers, trackers.aggregate, trackers.trackers
    ensures PollsUntil(trackers.born, old(trackers.hooks), sleeps, timeout, stopRequested, verdict, slept)
    ensures trackers.Valid() && trackers.hooks == HooksBy(old(trackers.hooks), sleeps, slept)
  {
    slept := 0;
    var stopSet, k := stopRequested, 0;
    while !stopSet && k < |sleeps|
      invariant slept == k <= |sleeps|
      invariant trackers.Valid() && trackers.hooks == HooksBy(old(trackers.hooks), sleeps, k)
      invariant fresh(set t | t in trackers.trackers && t !in old(trackers.trackers))
      invariant SleepsOn(trackers.born, old(trackers.hooks), sleeps, timeout, k)
      invariant stopSet == if k == 0 then stopRequested else sleeps[k - 1].stopRequested
    {
      slept := k + 1;
      if sleeps[k].Cancelled? {
        return Returned, slept;
      }
      var due := Poll(trackers, timeout, sleeps, k, old(trackers.hooks));
      if due {
        return Fired(sleeps[k].at), slept;
      }
      stopSet, k := sleeps[k].stopRequested, k + 1;
    }
    verdict := if stopSet then Returned else Asleep;
  }

  /** The watchdog fires after the first check that is due; else it was cancelled or stopped, or the sleeps are over. */
  ghost predicate IsVerdict(
      born: real, before: seq<Hook>, sleeps: seq<Sleep>, timeout: nat, stopRequested: bool,
      verdict: Verdict, slept: nat)
  {
    && slept <= |sleeps|
    && (verdict.Fired? <==> 0 < slept && FiresAfter(born, before, sleeps, timeout, slept - 1))
    && (verdict.Fired? ==> verdict.at == sleeps[slept - 1].at)
    && (forall k: nat | k + 1 < slept :: sleeps[k].Slept? && !FiresAfter(born, before, sleeps, timeout, k))
    && (verdict.Asleep? ==> slept == |sleeps|)
    && (verdict.Returned? ==>
          if slept == 0 then stopRequested else sleeps[slept - 1].Cancelled? || sleeps[slept - 1].stopRequested)
  }

  lemma PollsToVerdict(
      born: real, before: seq<Hook>, sleeps: seq<Sleep>, timeout: nat, stopRequested: bool,
      verdict: Verdict, slept: nat)
    requires PollsUntil(born, before, sleeps, timeout, stopRequested, verdict, slept)
    ensures IsVerdict(born, before, sleeps, timeout, stopRequested, verdict, slept)
    ensures verdict.Fired? ==> forall j | 0 <= j < slept :: sleeps[j].Slept?
  {
    if slept > 0 {
      SleepsOnThroughout(born, before, sleeps, timeout, slept - 1);
    }
  }

  /**
   The watchdog over any timeline. If it fires, then the forwards had been unused for the whole of
   the timeout: no connection was open at any moment of it, and none was opened or closed after its
   first moment. It fires at the first check that is due.
   */
  method IdleWatchdog(
      trackers: Trackers, timeout: nat, stopRequested: bool, sleeps: seq<Sleep>,
      ghost begin: real, ghost overrun: real)
    returns (verdict: Verdict, ghost slept: nat)
    requires trackers.Valid()
    requires IsTimeline(trackers.born, begin, trackers.hooks, sleeps, PollInterval(timeout), overrun)
    modifies trackers, trackers.aggregate, trackers.trackers
    ensures trackers.Valid() && slept <= |sleeps| && trackers.hooks == HooksBy(old(trackers.hooks), sleeps, slept)
    ensures verdict.Fired? ==>
      && 0 < slept && sleeps[slept - 1].Slept? && verdict.at == sleeps[slept - 1].at
      && WasUnused(trackers.hooks, verdict.at, timeout as real)
    ensures IsVerdict(trackers.born, old(trackers.hooks), sleeps, timeout, stopRequested, verdict, slept)
  {
    ghost var before := trackers.hooks;
    verdict, slept := PollUntilDue(trackers, timeout, stopRequested, sleeps);
    PollsToVerdict(trackers.born, before, sleeps, timeout, stopRequested, verdict, slept);
    if verdict.Fired? {
      FiringIsSafe(
        trackers.born, begin, before, sleeps, timeout, PollInterval(timeout), overrun, slept - 1);
    }
  }

  // ---------------------------------------------------------------- how late it can be

  /** From the last event on, nothing happens any more and nothing is open. */
  ghost predicate IsUnusedFrom(born: real, hooks: seq<Hook>, e: real) {
    Replay(born, hooks).count == 0 && Replay(born, hooks).last == e
  }

  /** A sleep that begins after the last event changes nothing. */
  lemma QuietSleep(
      born: real, begin: real, before: seq<Hook>, sleeps: seq<Sleep>, poll: real, overrun: real, k: nat, e: real)
    requires IsTimeline(born, begin, before, sleeps, poll, overrun) && 0 < k < |sleeps|
    requires forall j | 0 <= j <= k :: sleeps[j].Slept?
    requires Replay(born, HooksBy(before, sleeps, k + 1)).last == e && e < sleeps[k - 1].at
    ensures Replay(born, HooksBy(before, sleeps, k)) == Replay(born, HooksBy(before, sleeps, k + 1))
  {
    var hooks, past := HooksBy(before, sleeps, k + 1), HooksBy(before, sleeps, k);
    HooksAreInTime(born, begin, before, sleeps, poll, overrun, k + 1);
    HooksAreTimely(before, sleeps, k + 1);
    LastCoversEvents(born, hooks, |hooks|);
    assert hooks[..|hooks|] == hooks && hooks[..|past|] == past;
    assert IsTimed(begin, sleeps, k, poll, overrun);
    forall j: nat | |past| <= j < |hooks|
      ensures !IsEvent(hooks, j)
    {
      assert hooks[j] in sleeps[k].hooks;
    }
    QuietStretch(born, hooks, |past|, |hooks|);
  }

  /**
   If the forwards are unused from time e on, the first firing check comes no earlier than the
   timeout after e, and at most a quarter of the timeout or a second (with overrun) after that moment,
   or after the watchdog's own start if that was later.
   */
  lemma LatenessBound(
      born: real, begin: real, before: seq<Hook>, sleeps: seq<Sleep>, timeout: nat, overrun: real,
      k: nat, e: real)
    requires IsTimeline(born, begin, before, sleeps, PollInterval(timeout), overrun) && k < |sleeps| && timeout >= 1
    requires forall j | 0 <= j <= k :: sleeps[j].Slept?
    requires IsUnusedFrom(born, HooksBy(before, sleeps, k + 1), e)
    requires FiresAfter(born, before, sleeps, timeout, k)
    requires k > 0 ==> !FiresAfter(born, before, sleeps, timeout, k - 1)
    ensures e + timeout as real <= sleeps[k].at
    ensures var due := if begin > e + timeout as real then begin else e + timeout as real;
      sleeps[k].at <= due + (if timeout >= 4 then timeout as real / 4.0 else 1.0) + overrun
  {
    assert IsTimed(begin, sleeps, k, PollInterval(timeout), overrun);
    if k > 0 && sleeps[k - 1].at >= e + timeout as real {
      QuietSleep(born, begin, before, sleeps, PollInterval(timeout), overrun, k, e);
    }
  }

  lemma {:induction false} FirstFiring(born: real, before: seq<Hook>, sleeps: seq<Sleep>, timeout: nat, n: nat)
    returns (k: nat)
    requires n < |sleeps| && FiresAfter(born, before, sleeps, timeout, n)
    ensures k <= n && FiresAfter(born, before, sleeps, timeout, k)
    ensures forall j: nat | j < k :: !FiresAfter(born, before, sleeps, timeout, j)
    decreases n
  {
    if j: nat :| j < n && FiresAfter(born, before, sleeps, timeout, j) {
      k := FirstFiring(born, before, sleeps, timeout, j);
    } else {
      k := n;
    }
  }

  /**
   A daemon that is unused from time e on, and is not stopped while it is still in use, is stopped
   in time: some check fires, and the first that does comes within the bound.
   */
  lemma UnusedDaemonStopsInTime(
      born: real, begin: real, before: seq<Hook>, sleeps: seq<Sleep>, timeout: nat, overrun: real, e: real)
    returns (k: nat)
    requires IsTimeline(born, begin, before, sleeps, PollInterval(timeout), overrun) && timeout >= 1 && sleeps != []
    requires forall j | 0 <= j < |sleeps| :: sleeps[j].Slept?
    requires IsUnusedFrom(born, HooksBy(before, sleeps, |sleeps|), e)
    requires sleeps[|sleeps| - 1].at >= e + timeout as real
    requires forall j: nat | j < |sleeps| && FiresAfter(born, before, sleeps, timeout, j) ::
      IsUnusedFrom(born, HooksBy(before, sleeps, j + 1), e)
    ensures k < |sleeps| && FiresAfter(born, before, sleeps, timeout, k)
    ensures forall j: nat | j < k :: !FiresAfter(born, before, sleeps, timeout, j)
    ensures e + timeout as real <= sleeps[k].at
    ensures var due := if begin > e + timeout as real then begin else e + timeout as real;
      sleeps[k].at <= due + (if timeout >= 4 then timeout as real / 4.0 else 1.0) + overrun
  {
    k := 0;
    k := FirstFiring(born, before, sleeps, timeout, |sleeps| - 1);
    LatenessBound(born, begin, before, sleeps, timeout, overrun, k, e);
  }

  lemma FirstFiringIsVerdict(
      born: real, before: seq<Hook>, sleeps: seq<Sleep>, timeout: nat, k: nat, verdict: Verdict, slept: nat)
    requires forall j | 0 <= j < |sleeps| :: sleeps[j].Slept? && !sleeps[j].stopRequested
    requires IsVerdict(born, before, sleeps, timeout, false, verdict, slept)
    requires k < |sleeps| && FiresAfter(born, before, sleeps, timeout, k)
    requires forall j: nat | j < k :: !FiresAfter(born, before, sleeps, timeout, j)
    ensures verdict == Fired(sleeps[k].at) && slept == k + 1
  {
  }

  /**
   So the watchdog itself, unless something else stops it first, ends such a daemon within the bound.
   */
  lemma WatchdogStopsUnusedDaemon(
      born: real, begin: real, before: seq<Hook>, sleeps: seq<Sleep>, timeout: nat, overrun: real, e: real,
      verdict: Verdict, slept: nat)
    requires IsTimeline(born, begin, before, sleeps, PollInterval(timeout), overrun) && timeout >= 1 && sleeps != []
    requires forall j | 0 <= j < |sleeps| :: sleeps[j].Slept? && !sleeps[j].stopRequested
    requires IsUnusedFrom(born, HooksBy(before, sleeps, |sleeps|), e)
    requires sleeps[|sleeps| - 1].at >= e + timeout as real
    requires forall j: nat | j < |sleeps| && FiresAfter(born, before, sleeps, timeout, j) ::
      IsUnusedFrom(born, HooksBy(before, sleeps, j + 1), e)
    requires IsVerdict(born, before, sleeps, timeout, false, verdict, slept)
    ensures verdict.Fired? && e + timeout as real <= verdict.at
    ensures var due := if begin > e + timeout as real then begin else e + timeout as real;
      verdict.at <= due + (if timeout >= 4 then timeout as real / 4.0 else 1.0) + overrun
  {
    var k := UnusedDaemonStopsInTime(born, begin, before, sleeps, timeout, overrun, e);
    FirstFiringIsVerdict(born, before, sleeps, timeout, k, verdict, slept);
  }
}
