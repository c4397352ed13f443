/**
 cli.py: how `stop` and `run` end a daemon. They check the identity, send SIGTERM, look for the
 process until the grace time is over, check the identity again, and send SIGKILL. The lock, the
 process and the clock may behave in any way at all; what is proved is about the log of what was
 asked, sent and said.
 */
module StopEscalation {
  import opened Wrappers
  import opened SessionProtocol

  /** os.kill's signal; signal 0 only looks whether the process exists. */
  datatype Signal = Nothing | Term | Kill

  datatype Delivery = Delivered | NoSuchProcess | Refused

  datatype Verdict =
    | NoSession
    | IdentityMismatch
    | CheckUnavailable
    | Stopped
    | StillAlive
    | IdentityChanged
    | Killed

  /** `at` is when the call was over; a sleep also has what it was asked for. */
  datatype Event =
    | Checked(check: Check, at: real)
    | Sent(signal: Signal, delivery: Delivery, at: real)
    | Slept(seconds: real, at: real)
    | Said(verdict: Verdict, at: real)

  // ---------------------------------------------------------------- what a log says

  predicate IsSignal(event: Event) {
    event.Sent? && !event.signal.Nothing?
  }

  /** The signals sent, in order. */
  function Signals(log: seq<Event>): seq<Signal> {
    if log == [] then []
    else Signals(log[..|log| - 1]) + if IsSignal(log[|log| - 1]) then [log[|log| - 1].signal] else []
  }

  /** How often the process was looked for. */
  function Polls(log: seq<Event>): nat {
    if log == [] then 0
    else Polls(log[..|log| - 1]) + if log[|log| - 1].Sent? && log[|log| - 1].signal.Nothing? then 1 else 0
  }

  function Verdicts(log: seq<Event>): seq<Verdict> {
    if log == [] then []
    else Verdicts(log[..|log| - 1]) + if log[|log| - 1].Said? then [log[|log| - 1].verdict] else []
  }

  /** Every signal comes straight after a check of its own that found the daemon to be its target. */
  predicate EverySignalIsChecked(log: seq<Event>) {
    forall i | 0 <= i < |log| && IsSignal(log[i]) ::
      i > 0 && log[i - 1].Checked? && log[i - 1].check.Match?
  }

  /** Nothing is waited for without having seen the process alive just before. */
  predicate EverySleepIsForALiveProcess(log: seq<Event>) {
    forall i | 0 <= i < |log| && log[i].Slept? ::
      i > 0 && log[i - 1].Sent? && log[i - 1].signal.Nothing? && log[i - 1].delivery.Delivered?
  }

  /** SIGKILL comes no sooner than the grace time after SIGTERM. */
  predicate KillIsPatient(log: seq<Event>, grace: real) {
    forall i, j | 0 <= i < j < |log| && IsSignal(log[i]) && IsSignal(log[j]) :: log[j].at >= log[i].at + grace
  }

  predicate IsLook(event: Event) {
    event.Sent? && event.signal.Nothing?
  }

  /** SIGTERM was delivered, or a sleep is over: from here on it is looked for the process again, or not any more. */
  predicate IsWaiting(event: Event) {
    event.Slept? || (event.Sent? && event.signal.Term? && event.delivery.Delivered?)
  }

  /** A call to kill that finds nobody, or is refused, is the last thing that is done. */
  predicate IsFinal(event: Event) {
    event.Sent? && !event.delivery.Delivered?
  }

  /**
   Every sleep is for half a second, every look comes straight after a sleep or SIGTERM, and so does
   every check but the first; what is final is followed by the verdict.
   */
  predicate LooksAreFrequent(log: seq<Event>) {
    && (forall i | 0 <= i < |log| && log[i].Slept? :: log[i].seconds == 0.5)
    && (forall i | 0 <= i < |log| && IsLook(log[i]) :: i > 0 && IsWaiting(log[i - 1]))
    && (forall i | 0 < i < |log| && log[i].Checked? :: IsWaiting(log[i - 1]))
    && (forall i | 0 < i < |log| && IsFinal(log[i - 1]) :: log[i].Said?)
  }

  /** Looking for the process ends only when it is gone, or when the grace time after SIGTERM is over. */
  predicate WaitsOut(log: seq<Event>, grace: real) {
    forall i, j | 0 <= j < i < |log| && IsWaiting(log[i - 1]) && !IsLook(log[i]) && IsSignal(log[j]) ::
      log[i].at >= log[j].at + grace
  }

  /** At this time the grace time after every signal is over. */
  predicate GraceIsOver(log: seq<Event>, grace: real, at: real) {
    forall i | 0 <= i < |log| && IsSignal(log[i]) :: at >= log[i].at + grace
  }

  /** What is said at this time follows from what had just been found. */
  predicate IsJustified(log: seq<Event>, verdict: Verdict, at: real, grace: real, force: bool) {
    && |log| > 0
    && var found := log[|log| - 1];
       match verdict
       case NoSession => log == [Checked(NotFound, found.at)]
       case IdentityMismatch => log == [Checked(Mismatch, found.at)]
       case CheckUnavailable => log == [Checked(Unavailable, found.at)]
       case Stopped => found.Sent? && found.delivery.NoSuchProcess?
       case StillAlive =>
         !force && Signals(log) == [Term] && GraceIsOver(log, grace, at) && IsWaiting(found)
       case IdentityChanged =>
         force && Signals(log) == [Term] && GraceIsOver(log, grace, at) && found.Checked? && !found.check.Match?
       case Killed => force && found.Sent? && found.signal.Kill? && found.delivery.Delivered?
  }

  /** Signals are checked for and patient, and between them the process is looked for as often as it should. */
  predicate IsWellBehaved(log: seq<Event>, grace: real) {
    && EverySignalIsChecked(log) && EverySleepIsForALiveProcess(log) && KillIsPatient(log, grace)
    && LooksAreFrequent(log) && WaitsOut(log, grace)
  }

  /** The process was just seen alive. */
  predicate SeenAlive(log: seq<Event>) {
    log != [] && IsLook(log[|log| - 1]) && log[|log| - 1].delivery.Delivered?
  }

  predicate JustMatched(log: seq<Event>) {
    log != [] && log[|log| - 1].Checked? && log[|log| - 1].check.Match?
  }

  /** What may come next: it depends on what came last, and giving up on the signals before. */
  predicate MayFollow(log: seq<Event>, event: Event, grace: real) {
    && (IsSignal(event) ==> JustMatched(log) && GraceIsOver(log, grace, event.at))
    && (event.Slept? ==> SeenAlive(log) && event.seconds == 0.5)
    && (IsLook(event) ==> log != [] && IsWaiting(log[|log| - 1]))
    && (event.Checked? ==> log == [] || IsWaiting(log[|log| - 1]))
    && (log != [] && IsFinal(log[|log| - 1]) ==> event.Said?)
    && (log != [] && IsWaiting(log[|log| - 1]) && !IsLook(event) ==> GraceIsOver(log, grace, event.at))
  }

  /** A log so far, event by event. */
  predicate IsOrderly(log: seq<Event>, grace: real) {
    log == []
    || (var k := |log| - 1; IsOrderly(log[..k], grace) && MayFollow(log[..k], log[k], grace) && !log[k].Said?)
  }

  lemma Snoc(log: seq<Event>, event: Event)
    ensures Signals(log + [event]) == Signals(log) + if IsSignal(event) then [event.signal] else []
    ensures Polls(log + [event]) == Polls(log) + if event.Sent? && event.signal.Nothing? then 1 else 0
    ensures Verdicts(log + [event]) == Verdicts(log) + if event.Said? then [event.verdict] else []
  {
  }

  lemma CheckedSnoc(log: seq<Event>, event: Event)
    requires EverySignalIsChecked(log) && (IsSignal(event) ==> JustMatched(log))
    ensures EverySignalIsChecked(log + [event])
  {
    var more := log + [event];
    forall i | 0 <= i < |more| && IsSignal(more[i])
      ensures i > 0 && more[i - 1].Checked? && more[i - 1].check.Match?
    {
      assert i < |log| ==> more[i] == log[i];
    }
  }

  lemma SleepSnoc(log: seq<Event>, event: Event)
    requires EverySleepIsForALiveProcess(log) && (event.Slept? ==> SeenAlive(log))
    ensures EverySleepIsForALiveProcess(log + [event])
  {
    var more := log + [event];
    forall i | 0 <= i < |more| && more[i].Slept?
      ensures i > 0 && more[i - 1].Sent? && more[i - 1].signal.Nothing? && more[i - 1].delivery.Delivered?
    {
      assert i < |log| ==> more[i] == log[i];
    }
  }

  lemma PatientSnoc(log: seq<Event>, event: Event, grace: real)
    requires KillIsPatient(log, grace) && (IsSignal(event) ==> GraceIsOver(log, grace, event.at))
    ensures KillIsPatient(log + [event], grace)
  {
    var more := log + [event];
    forall i, j | 0 <= i < j < |more| && IsSignal(more[i]) && IsSignal(more[j])
      ensures more[j].at >= more[i].at + grace
    {
      assert more[i] == log[i] && (j < |log| ==> more[j] == log[j]);
    }
  }

  lemma FrequentSnoc(log: seq<Event>, event: Event)
    requires LooksAreFrequent(log) && (event.Slept? ==> event.seconds == 0.5)
    requires IsLook(event) ==> log != [] && IsWaiting(log[|log| - 1])
    requires event.Checked? ==> log == [] || IsWaiting(log[|log| - 1])
    requires log != [] && IsFinal(log[|log| - 1]) ==> event.Said?
    ensures LooksAreFrequent(log + [event])
  {
    var more := log + [event];
    forall i | 0 <= i < |more|
      ensures IsLook(more[i]) ==> i > 0 && IsWaiting(more[i - 1])
      ensures i > 0 && more[i].Checked? ==> IsWaiting(more[i - 1])
      ensures i > 0 && IsFinal(more[i - 1]) ==> more[i].Said?
    {
      assert i < |log| ==> more[i] == log[i];
      assert i > 0 ==> more[i - 1] == log[i - 1];
    }
  }

  lemma WaitsSnoc(log: seq<Event>, event: Event, grace: real)
    requires WaitsOut(log, grace)
    requires log != [] && IsWaiting(log[|log| - 1]) && !IsLook(event) ==> GraceIsOver(log, grace, event.at)
    ensures WaitsOut(log + [event], grace)
  {
    var more := log + [event];
    forall i, j | 0 <= j < i < |more| && IsWaiting(more[i - 1]) && !IsLook(more[i]) && IsSignal(more[j])
      ensures more[i].at >= more[j].at + grace
    {
      assert more[i - 1] == log[i - 1] && more[j] == log[j] && (i < |log| ==> more[i] == log[i]);
    }
  }

  lemma BehavedSnoc(log: seq<Event>, event: Event, grace: real)
    requires IsWellBehaved(log, grace) && MayFollow(log, event, grace)
    ensures IsWellBehaved(log + [event], grace)
  {
    CheckedSnoc(log, event);
    SleepSnoc(log, event);
    PatientSnoc(log, event, grace);
    FrequentSnoc(log, event);
    WaitsSnoc(log, event, grace);
  }

  /** Event by event comes down to what holds of the whole log. */
  lemma {:induction false} OrderlyIsWellBehaved(log: seq<Event>, grace: real)
    requires IsOrderly(log, grace)
    ensures IsWellBehaved(log, grace) && Verdicts(log) == []
  {
    if log != [] {
      var front, last := log[..|log| - 1], log[|log| - 1];
      assert log == front + [last];
      OrderlyIsWellBehaved(front, grace);
      BehavedSnoc(front, last, grace);
    }
  }

  lemma OrderlySnoc(log: seq<Event>, event: Event, grace: real)
    requires IsOrderly(log, grace) && MayFollow(log, event, grace) && !event.Said?
    ensures IsOrderly(log + [event], grace)
  {
  }

  /** SIGTERM was the only signal, and it was sent at the given time or before. */
  predicate TermOnly(log: seq<Event>, latest: real) {
    Signals(log) == [Term] && forall i | 0 <= i < |log| && IsSignal(log[i]) :: log[i].at <= latest
  }

  lemma TermIsOver(log: seq<Event>, latest: real, at: real, grace: real)
    requires TermOnly(log, latest) && at >= latest + grace
    ensures GraceIsOver(log, grace, at)
  {
  }

  lemma TermOnlySnoc(log: seq<Event>, event: Event, latest: real)
    requires TermOnly(log, latest) && !IsSignal(event)
    ensures TermOnly(log + [event], latest)
  {
  }

  lemma SayIsHarmless(log: seq<Event>, verdict: Verdict, at: real, grace: real)
    requires IsOrderly(log, grace) && MayFollow(log, Said(verdict, at), grace)
    ensures var more := log + [Said(verdict, at)];
      && Signals(more) == Signals(log) && Polls(more) == Polls(log) && Verdicts(more) == [verdict]
      && IsWellBehaved(more, grace)
  {
    OrderlyIsWellBehaved(log, grace);
    Snoc(log, Said(verdict, at));
    BehavedSnoc(log, Said(verdict, at), grace);
  }

  /** A whole log with its one verdict at the end, justified by what was found last. */
  predicate Concludes(log: seq<Event>, grace: real, force: bool) {
    && IsWellBehaved(log, grace) && log != []
    && var said := log[|log| - 1];
       && said.Said? && Verdicts(log) == [said.verdict]
       && IsJustified(log[..|log| - 1], said.verdict, said.at, grace, force)
  }

  // ---------------------------------------------------------------- a process that goes in time

  /** Beyond the seconds that were asked for, neither a call nor a sleep with what follows it takes longer than this. */
  predicate IsPunctual(log: seq<Event>, slack: real) {
    && (forall i | 0 < i < |log| && !log[i].Slept? && !log[i - 1].Slept? :: log[i].at <= log[i - 1].at + slack)
    && (forall i | 1 < i < |log| && log[i - 1].Slept? :: log[i].at <= log[i - 2].at + log[i - 1].seconds + slack)
  }

  predicate FoundAlive(event: Event) {
    event.Sent? && event.delivery.Delivered?
  }

  /** When a wait goes on or ends, the process was found alive at most half a second before, with the slack. */
  lemma WaitsAreShort(log: seq<Event>, grace: real, slack: real, i: nat) returns (k: nat)
    requires IsWellBehaved(log, grace) && IsPunctual(log, slack) && 0 < i < |log| && IsWaiting(log[i - 1])
    requires !log[i].Slept?
    ensures k < i && FoundAlive(log[k]) && log[i].at <= log[k].at + 0.5 + slack
  {
    k := if log[i - 1].Slept? then i - 2 else i - 1;
  }

  /** Consecutive looks are at most half a second apart, with the slack, and the first follows SIGTERM at once. */
  lemma LooksAreClose(log: seq<Event>, grace: real, slack: real, i: nat)
    requires IsWellBehaved(log, grace) && IsPunctual(log, slack) && i < |log| && IsLook(log[i])
    ensures i > 0 &&
      if log[i - 1].Slept? then
        i > 1 && IsLook(log[i - 2]) && log[i].at <= log[i - 2].at + 0.5 + slack
      else
        log[i - 1].Sent? && log[i - 1].signal.Term? && log[i].at <= log[i - 1].at + slack
  {
  }

  /** A wait that ends without another look ends when the grace time is over, soon after a sign of life. */
  lemma WaitEndsLate(log: seq<Event>, grace: real, slack: real, i: nat, term: nat) returns (k: nat)
    requires IsWellBehaved(log, grace) && IsPunctual(log, slack)
    requires 0 < i < |log| && IsWaiting(log[i - 1]) && !IsLook(log[i]) && !log[i].Slept?
    requires term < i && IsSignal(log[term])
    ensures k < i && FoundAlive(log[k]) && log[k].at >= log[term].at + grace - 0.5 - slack
  {
    k := WaitsAreShort(log, grace, slack, i);
  }

  lemma PrefixIsFrequent(log: seq<Event>, event: Event)
    requires LooksAreFrequent(log + [event])
    ensures LooksAreFrequent(log)
  {
    var more := log + [event];
    assert forall i | 0 <= i < |log| :: more[i] == log[i];
  }

  /** The last wait before it is given up: it ends when the grace time is over. */
  lemma LastWait(log: seq<Event>, verdict: Verdict, at: real, grace: real, force: bool, term: nat) returns (i: nat)
    requires IsJustified(log, verdict, at, grace, force) && LooksAreFrequent(log)
    requires verdict.StillAlive? || verdict.IdentityChanged?
    requires term < |log| && log[term].Sent? && log[term].signal.Term?
    ensures i == (if verdict.StillAlive? then |log| else |log| - 1) && 0 < i && IsWaiting(log[i - 1]) && term < i
    ensures verdict.IdentityChanged? ==> log[i].Checked?
  {
    i := if verdict.StillAlive? then |log| else |log| - 1;
  }

  /**
   It is given up only if the process was found alive late in the grace time: at most half a second
   before its end, with the slack.
   */
  lemma GivesUpLate(log: seq<Event>, said: Event, grace: real, force: bool, slack: real, term: nat) returns (k: nat)
    requires IsWellBehaved(log + [said], grace) && IsPunctual(log + [said], slack)
    requires said.Said? && (said.verdict.StillAlive? || said.verdict.IdentityChanged?)
    requires IsJustified(log, said.verdict, said.at, grace, force)
    requires term < |log| && log[term].Sent? && log[term].signal.Term?
    ensures k < |log| && FoundAlive(log[k]) && log[k].at >= log[term].at + grace - 0.5 - slack
  {
    PrefixIsFrequent(log, said);
    var i := LastWait(log, said.verdict, said.at, grace, force, term);
    k := WaitEndsLate(log + [said], grace, slack, i, term);
  }

  /** A verdict after SIGTERM that is not Stopped comes with a late sign of life. */
  lemma OtherVerdictsAreLate(
      log: seq<Event>, said: Event, grace: real, force: bool, slack: real, term: nat) returns (k: nat)
    requires IsWellBehaved(log + [said], grace) && IsPunctual(log + [said], slack) && grace >= 0.0 && slack >= 0.0
    requires said.Said? && !said.verdict.Stopped? && IsJustified(log, said.verdict, said.at, grace, force)
    requires term < |log| && log[term].Sent? && log[term].signal.Term?
    ensures k < |log| && FoundAlive(log[k]) && log[k].at >= log[term].at + grace - 0.5 - slack
  {
    if said.verdict.StillAlive? || said.verdict.IdentityChanged? {
      k := GivesUpLate(log, said, grace, force, slack, term);
    } else {
      k := |log| - 1;
      PrefixIsPatient(log, said, grace);
      FourVerdicts(log, said.verdict, said.at, grace, force, term);
    }
  }

  lemma PrefixIsPatient(log: seq<Event>, event: Event, grace: real)
    requires KillIsPatient(log + [event], grace)
    ensures KillIsPatient(log, grace)
  {
    assert forall i | 0 <= i < |log| :: (log + [event])[i] == log[i];
  }

  /** After SIGTERM there are four verdicts; where SIGKILL was delivered, that was after the grace time. */
  lemma FourVerdicts(log: seq<Event>, verdict: Verdict, at: real, grace: real, force: bool, term: nat)
    requires IsJustified(log, verdict, at, grace, force) && KillIsPatient(log, grace)
    requires term < |log| && log[term].Sent? && log[term].signal.Term?
    ensures verdict.Stopped? || verdict.StillAlive? || verdict.IdentityChanged? || verdict.Killed?
    ensures verdict.Killed? ==> FoundAlive(log[|log| - 1]) && log[|log| - 1].at >= log[term].at + grace
  {
  }

  /** So a process that has gone by then is said to be stopped. */
  lemma GoneInTimeIsStopped(
      log: seq<Event>, said: Event, grace: real, force: bool, slack: real, term: nat, gone: real)
    requires Concludes(log + [said], grace, force) && IsPunctual(log + [said], slack) && grace >= 0.0 && slack >= 0.0
    requires term < |log| && log[term].Sent? && log[term].signal.Term?
    requires forall i | 0 <= i < |log| && log[i].Sent? && log[i].at >= gone :: log[i].delivery.NoSuchProcess?
    requires gone <= log[term].at + grace - 0.5 - slack
    ensures said.verdict.Stopped?
  {
    assert (log + [said])[..|log|] == log;
    if !said.verdict.Stopped? {
      var k := OtherVerdictsAreLate(log, said, grace, force, slack, term);
    }
  }

  /** A stop in progress on a daemon with one pid. */
  class Stop {
    const pid: Pid
    const grace: int
    const force: bool
    var now: real
    ghost var log: seq<Event>

    constructor (pid: Pid, grace: int, force: bool, now: real)
      ensures this.pid == pid && this.grace == grace && this.force == force && log == []
    {
      this.pid, this.grace, this.force, this.now, this.log := pid, grace, force, now, [];
    }

    /** max(0, grace_seconds) */
    function Patience(): (seconds: nat)
      ensures seconds == grace || (seconds == 0 && grace < 0)
    {
      if grace > 0 then grace else 0
    }

    // ------------------------------------------------------------ the environment, in any mood

    method VerifySession() returns (check: Check)
      modifies this
      ensures log == old(log) + [Checked(check, now)] && now >= old(now)
    {
      check := *;
      log := log + [Checked(check, now)];
    }

    method OsKill(signal: Signal) returns (delivery: Delivery)
      modifies this
      ensures now >= old(now) && log == old(log) + [Sent(signal, delivery, now)]
    {
      delivery := *;
      log := log + [Sent(signal, delivery, now)];
    }

    /** The monotonic clock; any time may have passed since it was last read. */
    method Monotonic() returns (time: real)
      modifies this`now
      ensures time == now >= old(now)
    {
      var passed: real := *;
      now := now + if passed > 0.0 then passed else 0.0;
      time := now;
    }

    method Sleep(seconds: real)
      requires seconds >= 0.0
      modifies this
      ensures now >= old(now) + seconds && log == old(log) + [Slept(seconds, now)]
    {
      var overrun: real := *;
      now := now + seconds + if overrun > 0.0 then overrun else 0.0;
      log := log + [Slept(seconds, now)];
    }

    method Say(verdict: Verdict)
      modifies this`log
      ensures log == old(log) + [Said(verdict, now)]
    {
      log := log + [Said(verdict, now)];
    }

    // ------------------------------------------------------------ _kill_with_identity

    /** The first check, and the verdict that it settles unless it is a match. */
    method CheckFirst() returns (settled: Option<Verdict>)
      requires log == []
      modifies this
      ensures |log| == 1 && log[0].Checked? && (settled.None? <==> log[0].check.Match?)
      ensures IsOrderly(log, Patience() as real) && Signals(log) == [] && Polls(log) == 0
      ensures settled.Some? ==>
        && IsJustified(log, settled.value, now, Patience() as real, force)
        && !settled.value.Stopped? && !settled.value.Killed?
    {
      var check := VerifySession();
      assert log == [] + [Checked(check, now)];
      Snoc([], Checked(check, now));
      OrderlySnoc([], Checked(check, now), Patience() as real);
      match check {
        case NotFound => return Some(NoSession);
        case Mismatch => return Some(IdentityMismatch);
        case Unavailable => return Some(CheckUnavailable);
        case Match => return None;
      }
    }

    /** One round of the loop: is the process still there? If so, sleep for half a second. */
    method LookAgain(ghost latest: real) returns (answer: Delivery)
      requires IsOrderly(log, Patience() as real) && TermOnly(log, latest) && log != [] && IsWaiting(log[|log| - 1])
      modifies this
      ensures IsOrderly(log, Patience() as real) && TermOnly(log, latest) && Polls(log) == Polls(old(log)) + 1
      ensures log != [] && now >= old(now) && (answer.Delivered? ==> now >= old(now) + 0.5)
      ensures if answer.Delivered? then log[|log| - 1].Slept?
              else log[|log| - 1].Sent? && log[|log| - 1].signal.Nothing? && log[|log| - 1].delivery == answer
    {
      answer := OsKill(Nothing);
      Snoc(old(log), log[|log| - 1]);
      OrderlySnoc(old(log), log[|log| - 1], Patience() as real);
      TermOnlySnoc(old(log), log[|log| - 1], latest);
      if answer.Delivered? {
        ghost var before := log;
        Sleep(0.5);
        Snoc(before, log[|log| - 1]);
        OrderlySnoc(before, log[|log| - 1], Patience() as real);
        TermOnlySnoc(before, log[|log| - 1], latest);
      }
    }

    /** Looks for the process until it is gone or the grace time is over: at most twice a second. */
    method AwaitExit(ghost latest: real) returns (answer: Delivery)
      requires IsOrderly(log, Patience() as real) && TermOnly(log, latest) && Polls(log) == 0 && latest <= now
      requires log != [] && IsSignal(log[|log| - 1]) && IsWaiting(log[|log| - 1])
      modifies this
      ensures IsOrderly(log, Patience() as real) && TermOnly(log, latest) && Polls(log) <= 2 * Patience() && log != []
      ensures if answer.Delivered? then
                now >= latest + Patience() as real && IsWaiting(log[|log| - 1])
              else log[|log| - 1].Sent? && log[|log| - 1].signal.Nothing? && log[|log| - 1].delivery == answer
    {
      answer := Delivered;
      var start := Monotonic();
      var deadline := start + Patience() as real;
      var time := Monotonic();
      ghost var rounds := 0;
      while time < deadline
        invariant IsOrderly(log, Patience() as real) && TermOnly(log, latest) && Polls(log) == rounds && log != []
        invariant answer.Delivered? && IsWaiting(log[|log| - 1])
        invariant time == now >= start + 0.5 * rounds as real && latest <= start && rounds <= 2 * Patience()
        decreases 2 * Patience() - rounds
      {
        answer := LookAgain(latest);
        if !answer.Delivered? {
          return;
        }
        rounds := rounds + 1;
        time := Monotonic();
      }
    }

    /** The check before SIGKILL. */
    method CheckAgain(ghost latest: real) returns (check: Check)
      requires IsOrderly(log, Patience() as real) && TermOnly(log, latest) && now >= latest + Patience() as real
      requires log != [] && IsWaiting(log[|log| - 1])
      modifies this
      ensures IsOrderly(log, Patience() as real) && TermOnly(log, latest) && Polls(log) == Polls(old(log))
      ensures log == old(log) + [Checked(check, now)] && now >= old(now)
    {
      check := VerifySession();
      TermIsOver(old(log), latest, now, Patience() as real);
      Snoc(old(log), Checked(check, now));
      OrderlySnoc(old(log), Checked(check, now), Patience() as real);
      TermOnlySnoc(old(log), Checked(check, now), latest);
    }

    /** SIGKILL after a matching check. */
    method SendKill(ghost latest: real) returns (r: Result<Verdict, Delivery>)
      requires IsOrderly(log, Patience() as real) && TermOnly(log, latest) && JustMatched(log) && force
      requires now >= latest + Patience() as real
      modifies this
      ensures IsOrderly(log, Patience() as real) && Polls(log) == Polls(old(log)) && Signals(log) == [Term, Kill]
      ensures log != [] && log[|log| - 1].Sent? && log[|log| - 1].signal.Kill?
      ensures match r
        case Ok(verdict) => IsJustified(log, verdict, now, Patience() as real, force)
        case Err(error) => error.Refused? && log[|log| - 1].delivery.Refused?
    {
      ghost var before := log;
      var delivery := OsKill(Kill);
      TermIsOver(before, latest, now, Patience() as real);
      Snoc(before, log[|log| - 1]);
      OrderlySnoc(before, log[|log| - 1], Patience() as real);
      match delivery {
        case NoSuchProcess => return Ok(Stopped);
        case Delivered => return Ok(Killed);
        case Refused => return Err(Refused);
      }
    }

    /** After the grace time: give up, or check again and send SIGKILL. */
    method Escalate(ghost latest: real) returns (r: Result<Verdict, Delivery>)
      requires IsOrderly(log, Patience() as real) && TermOnly(log, latest) && log != []
      requires now >= latest + Patience() as real && IsWaiting(log[|log| - 1])
      modifies this
      ensures IsOrderly(log, Patience() as real) && Polls(log) == Polls(old(log))
      ensures Signals(log) == [Term] || (force && Signals(log) == [Term, Kill])
      ensures log != [] && (IsWaiting(log[|log| - 1]) ==> GraceIsOver(log, Patience() as real, now))
      ensures r.Ok? ==> IsJustified(log, r.value, now, Patience() as real, force)
      ensures r.Err? ==> r.error.Refused? && log[|log| - 1].Sent? && log[|log| - 1].delivery.Refused?
    {
      TermIsOver(log, latest, now, Patience() as real);
      if !force {
        return Ok(StillAlive);
      }
      var check := CheckAgain(latest);
      if !check.Match? {
        TermIsOver(log, latest, now, Patience() as real);
        return Ok(IdentityChanged);
      }
      r := SendKill(latest);
    }

    /** SIGTERM after a matching check, and all that follows from it. */
    method TermAndWait() returns (r: Result<Verdict, Delivery>)
      requires |log| == 1 && JustMatched(log)
      requires IsOrderly(log, Patience() as real) && Signals(log) == [] && Polls(log) == 0
      modifies this
      ensures IsOrderly(log, Patience() as real) && Polls(log) <= 2 * Patience()
      ensures Signals(log) == [Term] || (force && Signals(log) == [Term, Kill])
      ensures r.Ok? ==> IsJustified(log, r.value, now, Patience() as real, force)
      ensures r.Ok? ==> log != [] && (IsWaiting(log[|log| - 1]) ==> GraceIsOver(log, Patience() as real, now))
      ensures r.Err? ==> r.error.Refused? && log != [] && log[|log| - 1].Sent? && log[|log| - 1].delivery.Refused?
    {
      ghost var before := log;
      var delivery := OsKill(Term);
      Snoc(before, log[|log| - 1]);
      OrderlySnoc(before, log[|log| - 1], Patience() as real);
      match delivery {
        case NoSuchProcess => return Ok(Stopped);
        case Refused => return Err(Refused);
        case Delivered =>
      }
      ghost var latest := now;
      delivery := AwaitExit(latest);
      match delivery {
        case NoSuchProcess => return Ok(Stopped);
        case Refused => return Err(Refused);
        case Delivered =>
      }
      r := Escalate(latest);
    }

    /** Says a verdict that what was found last justifies. */
    method Conclude(verdict: Verdict)
      requires IsOrderly(log, Patience() as real) && IsJustified(log, verdict, now, Patience() as real, force)
      requires log != [] && (IsWaiting(log[|log| - 1]) ==> GraceIsOver(log, Patience() as real, now))
      modifies this`log
      ensures Signals(log) == Signals(old(log)) && Polls(log) == Polls(old(log)) && Verdicts(log) == [verdict]
      ensures IsWellBehaved(log, Patience() as real)
      ensures |log| > 0 && log[|log| - 1] == Said(verdict, now)
      ensures IsJustified(log[..|log| - 1], verdict, now, Patience() as real, force)
    {
      SayIsHarmless(log, verdict, now, Patience() as real);
      Say(verdict);
      assert log[..|log| - 1] == old(log);
    }

    /**
     `_kill_with_identity`. Whatever the session, the process and the clock do: it signals at most
     SIGTERM and then SIGKILL, each straight after a check of its own that matched, SIGKILL only
     with force and after the grace time; in between it looks for the process after every half second
     until it is gone or the grace time is over; and it says exactly one verdict, which is true of what
     it found last, unless a signal is refused, which escapes to the caller before anything is said.
     */
    method KillWithIdentity() returns (stopped: Result<bool, Delivery>)
      requires log == []
      modifies this
      ensures Signals(log) == [] || Signals(log) == [Term] || (force && Signals(log) == [Term, Kill])
      ensures IsWellBehaved(log, Patience() as real)
      ensures Polls(log) <= 2 * Patience()
      ensures stopped.Ok? ==>
        && Concludes(log, Patience() as real, force)
        && (stopped.value <==> log[|log| - 1].verdict.Stopped? || log[|log| - 1].verdict.Killed?)
      ensures stopped.Err? ==>
        Verdicts(log) == [] && |log| > 0 && log[|log| - 1].Sent? && log[|log| - 1].delivery.Refused?
    {
      var settled := CheckFirst();
      if settled.Some? {
        Conclude(settled.value);
        return Ok(false);
      }
      var r := TermAndWait();
      if r.Err? {
        OrderlyIsWellBehaved(log, Patience() as real);
        return Err(Refused);
      }
      Conclude(r.value);
      stopped := Ok(r.value.Stopped? || r.value.Killed?);
    }
  }
}
