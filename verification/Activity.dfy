/**
 activity.py: the daemon-wide count of open forward connections and the time of the last change,
 driven by hooks on any number of per-connection trackers.
 */
module Activity {
  /** A hook call on the tracker of that number, at a time of the monotonic clock. */
  datatype Hook = Made(id: nat, at: real) | Lost(id: nat, at: real)

  // ---------------------------------------------------------------- what the hooks mean

  /** The connection has been made, and not lost since it was first made. */
  ghost predicate IsOpen(hooks: seq<Hook>, id: nat) {
    exists i :: IsFirstMade(hooks, i, id) && forall j | i < j < |hooks| :: !(hooks[j].Lost? && hooks[j].id == id)
  }

  ghost predicate IsFirstMade(hooks: seq<Hook>, i: int, id: nat) {
    && 0 <= i < |hooks| && hooks[i].Made? && hooks[i].id == id
    && forall j | 0 <= j < i :: !(hooks[j].Made? && hooks[j].id == id)
  }

  /** The k-th hook opens or closes a connection; repeated and stray hooks do neither. */
  ghost predicate IsEvent(hooks: seq<Hook>, k: nat)
    requires k < |hooks|
  {
    match hooks[k]
    case Made(id, _) => IsFirstMade(hooks, k, id)
    case Lost(id, _) => IsOpen(hooks[..k], id)
  }

  /** The hooks come in the order of time. */
  predicate IsTimely(hooks: seq<Hook>) {
    var n := |hooks|;
    n < 2 || (IsTimely(hooks[..n - 1]) && hooks[n - 2].at <= hooks[n - 1].at)
  }

  lemma {:induction false} TimelyPairs(hooks: seq<Hook>, i: nat, j: nat)
    requires IsTimely(hooks) && i <= j < |hooks|
    ensures hooks[i].at <= hooks[j].at
  {
    if i < j {
      if j < |hooks| - 1 {
        TimelyPairs(hooks[..|hooks| - 1], i, j);
      } else {
        TimelyPairs(hooks[..|hooks| - 1], i, j - 1);
      }
    }
  }

  lemma {:induction false} TimelyPrefix(hooks: seq<Hook>, n: nat)
    requires IsTimely(hooks) && n <= |hooks|
    ensures IsTimely(hooks[..n])
    decreases |hooks| - n
  {
    if n == |hooks| {
      assert hooks[..n] == hooks;
    } else if n > 0 {
      TimelyPrefix(hooks, n + 1);
      assert hooks[..n + 1][..n] == hooks[..n];
    }
  }

  /** The hooks up to and including time u. */
  function UpTo(hooks: seq<Hook>, u: real): seq<Hook> {
    if hooks == [] || hooks[0].at > u then [] else [hooks[0]] + UpTo(hooks[1..], u)
  }

  // ---------------------------------------------------------------- what the code computes

  /** All trackers' flags and the aggregate, after replaying hooks on an aggregate born at `start`. */
  datatype Totals = Totals(made: set<nat>, lost: set<nat>, count: nat, last: real)

  function Apply(totals: Totals, hook: Hook): Totals {
    match hook
    case Made(id, at) =>
      if id in totals.made then totals
      else totals.(made := totals.made + {id}, count := totals.count + 1, last := at)
    case Lost(id, at) =>
      if id in totals.lost || id !in totals.made then totals
      else
        totals.(lost := totals.lost + {id}, count := if totals.count == 0 then 0 else totals.count - 1, last := at)
  }

  function Replay(start: real, hooks: seq<Hook>): Totals {
    if hooks == [] then Totals({}, {}, 0, start)
    else Apply(Replay(start, hooks[..|hooks| - 1]), hooks[|hooks| - 1])
  }

  lemma OpenSnoc(hooks: seq<Hook>, hook: Hook, id: nat)
    ensures IsOpen(hooks + [hook], id) <==>
      || (IsOpen(hooks, id) && !(hook.Lost? && hook.id == id))
      || IsFirstMade(hooks + [hook], |hooks|, id)
  {
    var more := hooks + [hook];
    assert forall i | 0 <= i < |hooks| :: more[i] == hooks[i];
    forall i | 0 <= i < |hooks|
      ensures IsFirstMade(more, i, id) <==> IsFirstMade(hooks, i, id)
    {
    }
    if IsOpen(more, id) {
      var i :| IsFirstMade(more, i, id)
               && forall j | i < j < |more| :: !(more[j].Lost? && more[j].id == id);
      if i < |hooks| {
        assert IsFirstMade(hooks, i, id) && !(more[|hooks|].Lost? && more[|hooks|].id == id);
      }
    }
    if IsOpen(hooks, id) && !(hook.Lost? && hook.id == id) {
      var i :| IsFirstMade(hooks, i, id)
               && forall j | i < j < |hooks| :: !(hooks[j].Lost? && hooks[j].id == id);
      assert IsFirstMade(more, i, id);
    }
  }

  lemma FirstMadeSnoc(hooks: seq<Hook>, hook: Hook, id: nat)
    ensures (exists i :: IsFirstMade(hooks + [hook], i, id)) <==>
      (exists i :: IsFirstMade(hooks, i, id)) || (hook.Made? && hook.id == id)
  {
    var more := hooks + [hook];
    assert forall i | 0 <= i < |hooks| :: more[i] == hooks[i];
    if i :| IsFirstMade(hooks, i, id) {
      assert IsFirstMade(more, i, id);
    } else if hook.Made? && hook.id == id {
      if exists j :: 0 <= j < |hooks| && hooks[j].Made? && hooks[j].id == id {
        LeastMade(hooks, id);
      } else {
        assert IsFirstMade(more, |hooks|, id);
      }
    }
    if i :| IsFirstMade(more, i, id) {
      assert i < |hooks| ==> IsFirstMade(hooks, i, id);
    }
  }

  lemma LeastMade(hooks: seq<Hook>, id: nat)
    requires exists j :: 0 <= j < |hooks| && hooks[j].Made? && hooks[j].id == id
    ensures exists i :: IsFirstMade(hooks, i, id)
  {
    var j :| 0 <= j < |hooks| && hooks[j].Made? && hooks[j].id == id;
    while exists k :: 0 <= k < j && hooks[k].Made? && hooks[k].id == id
      invariant 0 <= j < |hooks| && hooks[j].Made? && hooks[j].id == id
      decreases j
    {
      var k :| 0 <= k < j && hooks[k].Made? && hooks[k].id == id;
      j := k;
    }
    assert IsFirstMade(hooks, j, id);
  }

  /** The flags say which connections were made and which are still open; the count counts the open ones. */
  lemma {:induction false} TotalsAreExact(start: real, hooks: seq<Hook>)
    ensures var t := Replay(start, hooks);
      && (forall id: nat :: id in t.made <==> exists i :: IsFirstMade(hooks, i, id))
      && (forall id: nat :: IsOpen(hooks, id) <==> id in t.made && id !in t.lost)
      && t.lost <= t.made
      && t.count == |t.made - t.lost|
  {
    if hooks != [] {
      var front, last := hooks[..|hooks| - 1], hooks[|hooks| - 1];
      assert hooks == front + [last];
      TotalsAreExact(start, front);
      var was, now := Replay(start, front), Replay(start, hooks);
      forall id: nat
        ensures id in now.made <==> exists i :: IsFirstMade(hooks, i, id)
        ensures IsOpen(hooks, id) <==> id in now.made && id !in now.lost
      {
        FirstMadeSnoc(front, last, id);
        OpenSnoc(front, last, id);
        FirstMadeLast(front, last, id);
      }
      CountStep(was, last);
    }
  }

  lemma FirstMadeLast(hooks: seq<Hook>, hook: Hook, id: nat)
    ensures IsFirstMade(hooks + [hook], |hooks|, id) <==>
      hook.Made? && hook.id == id && !exists i :: IsFirstMade(hooks, i, id)
  {
    var more := hooks + [hook];
    assert forall i | 0 <= i < |hooks| :: more[i] == hooks[i];
    if exists j :: 0 <= j < |hooks| && hooks[j].Made? && hooks[j].id == id {
      LeastMade(hooks, id);
    }
  }

  /** A set with one element fewer or more; the clamp at zero never acts. */
  lemma CountStep(t: Totals, hook: Hook)
    requires t.lost <= t.made && t.count == |t.made - t.lost|
    ensures var now := Apply(t, hook); now.lost <= now.made && now.count == |now.made - now.lost|
  {
  }

  /** The aggregate is idle exactly when no connection is open. */
  lemma IdleMeansNothingOpen(start: real, hooks: seq<Hook>)
    ensures Replay(start, hooks).count == 0 <==> forall id: nat :: !IsOpen(hooks, id)
  {
    TotalsAreExact(start, hooks);
    var t := Replay(start, hooks);
    if t.count == 0 {
      assert t.made - t.lost == {};
      forall id: nat
        ensures !IsOpen(hooks, id)
      {
        assert id !in t.made - t.lost;
      }
    } else {
      var id :| id in t.made - t.lost;
      assert IsOpen(hooks, id);
    }
  }

  lemma ReplayNext(start: real, hooks: seq<Hook>, k: nat)
    requires k < |hooks|
    ensures Replay(start, hooks[..k + 1]) == Apply(Replay(start, hooks[..k]), hooks[k])
  {
    assert hooks[..k + 1][..k] == hooks[..k];
  }

  lemma MadeIsEvent(hooks: seq<Hook>, k: nat, id: nat)
    requires k < |hooks| && hooks[k].Made? && hooks[k].id == id
    ensures IsEvent(hooks, k) <==> !exists i :: IsFirstMade(hooks[..k], i, id)
  {
    assert hooks[..k + 1] == hooks[..k] + [hooks[k]];
    FirstMadeLast(hooks[..k], hooks[k], id);
    assert IsFirstMade(hooks[..k + 1], k, id) <==> IsFirstMade(hooks, k, id);
  }

  /** A hook changes the totals exactly if it opens or closes a connection, and then stamps its time. */
  lemma EventsChangeTotals(start: real, hooks: seq<Hook>, k: nat)
    requires k < |hooks|
    ensures var was, now := Replay(start, hooks[..k]), Replay(start, hooks[..k + 1]);
      if IsEvent(hooks, k) then now.last == hooks[k].at else now == was
  {
    var before := hooks[..k];
    ReplayNext(start, hooks, k);
    TotalsAreExact(start, before);
    if hooks[k].Made? {
      MadeIsEvent(hooks, k, hooks[k].id);
    }
  }

  /** A stretch of hooks without events changes nothing. */
  lemma {:induction false} QuietStretch(start: real, hooks: seq<Hook>, m: nat, n: nat)
    requires m <= n <= |hooks| && forall k: nat | m <= k < n :: !IsEvent(hooks, k)
    ensures Replay(start, hooks[..n]) == Replay(start, hooks[..m])
    decreases n
  {
    if m < n {
      QuietStretch(start, hooks, m, n - 1);
      EventsChangeTotals(start, hooks, n - 1);
    }
  }

  /** The recorded time is the start's or a hook's, and no event comes after it. */
  lemma {:induction false} LastCoversEvents(start: real, hooks: seq<Hook>, n: nat)
    requires n <= |hooks| && IsTimely(hooks) && (hooks != [] ==> start <= hooks[0].at)
    ensures var last := Replay(start, hooks[..n]).last;
      && start <= last && (last == start || exists k: nat :: k < n && IsEvent(hooks, k) && hooks[k].at == last)
      && forall k: nat | k < n && IsEvent(hooks, k) :: hooks[k].at <= last
    decreases n
  {
    if n > 0 {
      LastCoversEvents(start, hooks, n - 1);
      EventsChangeTotals(start, hooks, n - 1);
      TimelyPairs(hooks, 0, n - 1);
      forall k: nat | k < n
        ensures hooks[k].at <= hooks[n - 1].at
      {
        TimelyPairs(hooks, k, n - 1);
      }
    }
  }

  lemma {:induction false} UpToIsPrefix(hooks: seq<Hook>, u: real)
    requires forall i, j | 0 <= i < j < |hooks| :: hooks[i].at <= hooks[j].at
    ensures var n := |UpTo(hooks, u)|;
      && n <= |hooks| && UpTo(hooks, u) == hooks[..n]
      && (forall k | n <= k < |hooks| :: hooks[k].at > u)
  {
    if hooks != [] && hooks[0].at <= u {
      UpToIsPrefix(hooks[1..], u);
      var n := |UpTo(hooks[1..], u)|;
      assert hooks[..n + 1] == [hooks[0]] + hooks[1..][..n];
      assert forall k | 1 <= k < |hooks| :: hooks[k] == hooks[1..][k - 1];
    }
  }

  /** No connection was open at any moment from t - d to t, and none was opened or closed after t - d. */
  ghost predicate WasUnused(hooks: seq<Hook>, t: real, d: real) {
    && (forall u | t - d <= u <= t :: forall id: nat :: !IsOpen(UpTo(hooks, u), id))
    && (forall k: nat | k < |hooks| && IsEvent(hooks, k) :: hooks[k].at <= t - d)
  }

  /**
   If the aggregate says at time t that it has been idle for d, then the forwards really were unused
   for all of that time, whatever hooks came on whichever trackers.
   */
  lemma IdleForMeansUnused(start: real, hooks: seq<Hook>, t: real, d: real)
    requires IsTimely(hooks) && (hooks != [] ==> start <= hooks[0].at)
    requires Replay(start, hooks).count == 0 && t - Replay(start, hooks).last >= d
    ensures WasUnused(hooks, t, d)
  {
    assert hooks[..|hooks|] == hooks;
    LastCoversEvents(start, hooks, |hooks|);
    forall u | t - d <= u <= t
      ensures forall id: nat :: !IsOpen(UpTo(hooks, u), id)
    {
      forall i, j | 0 <= i < j < |hooks|
        ensures hooks[i].at <= hooks[j].at
      {
        TimelyPairs(hooks, i, j);
      }
      UpToIsPrefix(hooks, u);
      QuietStretch(start, hooks, |UpTo(hooks, u)|, |hooks|);
      IdleMeansNothingOpen(start, UpTo(hooks, u));
    }
  }

  // ---------------------------------------------------------------- the objects

  /** ActivityTracker: the shared aggregate. */
  class ActivityTracker {
    var activeCount: int
    var lastActivityAt: real

    constructor (now: real)
      ensures activeCount == 0 && lastActivityAt == now
    {
      activeCount, lastActivityAt := 0, now;
    }

    method NoteConnectionMade(now: real)
      modifies this
      ensures activeCount == old(activeCount) + 1 && lastActivityAt == now
    {
      activeCount := activeCount + 1;
      lastActivityAt := now;
    }

    method NoteConnectionLost(now: real)
      modifies this
      ensures activeCount == (if old(activeCount) >= 1 then old(activeCount) - 1 else 0) && lastActivityAt == now
    {
      activeCount := if activeCount - 1 > 0 then activeCount - 1 else 0;
      lastActivityAt := now;
    }
  }

  /** _IdleConnectionTracker: one accepted connection's view of the aggregate. */
  class ConnectionTracker {
    const aggregate: ActivityTracker
    var wasOpened: bool
    var wasClosed: bool

    constructor (aggregate: ActivityTracker)
      ensures this.aggregate == aggregate && !wasOpened && !wasClosed
    {
      this.aggregate := aggregate;
      wasOpened, wasClosed := false, false;
    }

    method ConnectionMade(now: real)
      modifies this, aggregate
      ensures wasOpened && wasClosed == old(wasClosed)
      ensures if old(wasOpened) then unchanged(aggregate)
              else aggregate.activeCount == old(aggregate.activeCount) + 1 && aggregate.lastActivityAt == now
    {
      if wasOpened {
        return;
      }
      wasOpened := true;
      aggregate.NoteConnectionMade(now);
    }

    method ConnectionLost(now: real)
      modifies this, aggregate
      ensures wasOpened == old(wasOpened) && wasClosed == (old(wasClosed) || old(wasOpened))
      ensures if old(wasClosed) || !old(wasOpened) then unchanged(aggregate)
              else
                && aggregate.activeCount
                   == (if old(aggregate.activeCount) >= 1 then old(aggregate.activeCount) - 1 else 0)
                && aggregate.lastActivityAt == now
    {
      if wasClosed || !wasOpened {
        return;
      }
      wasClosed := true;
      aggregate.NoteConnectionLost(now);
    }
  }

  /** One aggregate with all the trackers that its factory has made, numbered in the order of making. */
  class Trackers {
    const aggregate: ActivityTracker
    const born: real
    var trackers: seq<ConnectionTracker>
    ghost var hooks: seq<Hook>

    /** The objects hold what replaying the hooks gives. */
    ghost predicate Valid()
      reads this, aggregate, trackers
    {
      var t := Replay(born, hooks);
      && (forall i, j | 0 <= i < j < |trackers| :: trackers[i] != trackers[j])
      && (forall i | 0 <= i < |trackers| ::
            && trackers[i].aggregate == aggregate
            && (trackers[i].wasOpened <==> i in t.made)
            && (trackers[i].wasClosed <==> i in t.lost))
      && (forall id | id in t.made || id in t.lost :: id < |trackers|)
      && aggregate.activeCount == t.count && aggregate.lastActivityAt == t.last
    }

    constructor (now: real)
      ensures Valid() && trackers == [] && hooks == [] && born == now && fresh(aggregate)
    {
      aggregate := new ActivityTracker(now);
      born, trackers, hooks := now, [], [];
    }

    /** The tracker_factory: asyncssh calls it once per accepted connection. */
    method MakeTracker()
      requires Valid()
      modifies this
      ensures Valid() && hooks == old(hooks) && |trackers| == |old(trackers)| + 1
      ensures trackers[..|old(trackers)|] == old(trackers) && fresh(trackers[|old(trackers)|])
    {
      var tracker := new ConnectionTracker(aggregate);
      trackers := trackers + [tracker];
    }

    /** A hook call on one of the trackers. */
    method Deliver(hook: Hook)
      requires Valid() && hook.id < |trackers|
      modifies this, aggregate, trackers
      ensures Valid() && trackers == old(trackers) && hooks == old(hooks) + [hook]
    {
      assert (hooks + [hook])[..|hooks|] == hooks;
      match hook {
        case Made(id, now) => trackers[id].ConnectionMade(now);
        case Lost(id, now) => trackers[id].ConnectionLost(now);
      }
      hooks := hooks + [hook];
    }
  }
}
