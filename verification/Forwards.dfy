/**
 ssh.py: the local forwards of one SSH connection. Listeners are named by the handle of their
 remote target; a connection logs what it opens and what it closes, in order.
 */
module Forwards {
  import opened Wrappers

  /** What the SSH server and the local port probe answer for one remote target. */
  datatype Attempt =
    | Refused(error: string)
    | NotAccepting(port: nat)
    | Accepting(port: nat)

  predicate AllAccepting(attempts: seq<Attempt>) {
    forall i | 0 <= i < |attempts| :: attempts[i].Accepting?
  }

  /** The handle-to-port entries of the targets, in schema order. */
  function PortEntries(handles: seq<string>, attempts: seq<Attempt>): (ports: seq<(string, nat)>)
    requires |handles| == |attempts| && AllAccepting(attempts)
    ensures |ports| == |handles|
    ensures forall i | 0 <= i < |handles| :: ports[i] == (handles[i], attempts[i].port)
  {
    seq(|handles|, i requires 0 <= i < |handles| => (handles[i], attempts[i].port))
  }

  datatype StartupError = ForwardRefused(error: string) | ForwardNotAccepting(handle: string, port: nat)

  /** The error that a forwards loop meets first, with the number of listeners it has opened by then. */
  ghost predicate FailsAt(
      handles: seq<string>, attempts: seq<Attempt>, k: nat, error: StartupError, started: seq<string>)
  {
    && |handles| == |attempts| && k < |handles|
    && AllAccepting(attempts[..k])
    && match attempts[k]
       case Refused(e) => error == ForwardRefused(e) && started == handles[..k]
       case NotAccepting(port) => error == ForwardNotAccepting(handles[k], port) && started == handles[..k + 1]
       case Accepting(_) => false
  }

  class Connection {
    var started: seq<string>
    var closed: seq<string>
    var isClosed: bool

    constructor ()
      ensures started == [] && closed == [] && !isClosed
    {
      started, closed, isClosed := [], [], false;
    }

    /** close_transport: every given listener is closed once, in order, then the connection if asked for. */
    method CloseTransport(listeners: seq<string>, withConnection: bool)
      modifies this
      ensures closed == old(closed) + listeners && started == old(started)
      ensures isClosed == (old(isClosed) || withConnection)
    {
      for i := 0 to |listeners|
        invariant closed == old(closed) + listeners[..i] && started == old(started) && isClosed == old(isClosed)
      {
        closed := closed + [listeners[i]];
      }
      if withConnection {
        isClosed := true;
      }
    }

    /**
     open_local_forwards: one listener per target and the port that it got, or an error after which every
     listener this call opened has been closed exactly once.
     */
    method OpenLocalForwards(handles: seq<string>, attempts: seq<Attempt>)
      returns (r: Result<seq<(string, nat)>, StartupError>, listeners: seq<string>)
      requires |handles| == |attempts|
      modifies this
      ensures isClosed == old(isClosed)
      ensures r.Ok? <==> AllAccepting(attempts)
      ensures r.Ok? ==>
        && r.value == PortEntries(handles, attempts) && listeners == handles
        && (forall i | 0 <= i < |handles| :: r.value[i] == (handles[i], attempts[i].port))
        && started == old(started) + handles && closed == old(closed)
      ensures r.Err? ==>
        && listeners == []
        && exists k, mine :: FailsAt(handles, attempts, k, r.error, mine)
             && started == old(started) + mine && closed == old(closed) + mine
    {
      var ports: seq<(string, nat)> := [];
      listeners := [];
      for i := 0 to |handles|
        invariant AllAccepting(attempts[..i])
        invariant listeners == handles[..i] && ports == PortEntries(handles[..i], attempts[..i])
        invariant started == old(started) + listeners && closed == old(closed) && isClosed == old(isClosed)
      {
        if attempts[i].Refused? {
          CloseTransport(listeners, false);
          assert FailsAt(handles, attempts, i, ForwardRefused(attempts[i].error), listeners);
          return Err(ForwardRefused(attempts[i].error)), [];
        }
        started := started + [handles[i]];
        listeners := listeners + [handles[i]];
        assert listeners == handles[..i + 1];
        if attempts[i].NotAccepting? {
          CloseTransport(listeners, false);
          assert FailsAt(handles, attempts, i, ForwardNotAccepting(handles[i], attempts[i].port), listeners);
          return Err(ForwardNotAccepting(handles[i], attempts[i].port)), [];
        }
        ports := ports + [(handles[i], attempts[i].port)];
      }
      assert attempts[..|handles|] == attempts && handles[..|handles|] == handles;
      r := Ok(ports);
    }
  }
}
