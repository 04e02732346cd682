/**
  Heartbeat liveness monitoring on the ground station.

  Each call of `HeartbeatReceiver.Run` sees the outcome of one blocking receive
  of a HEARTBEAT (0) message and updates two fields: the number of consecutive
  missed heartbeats and the connected flag. `Step` is the same transition on
  values; the lemmas about `RunAll` describe what any sequence of receive
  outcomes leads to.
 */
module Heartbeat {
  import opened Mavlink

  /** Number of consecutive missed heartbeats after which the link counts as lost. */
  const DISCONNECT_THRESHOLD: nat := 5

  /** What one `recv_match` call produced: a message or nothing, or an exception. */
  datatype Receipt = Returned(msg: Option<Message>) | Raised

  /** The receive delivered a HEARTBEAT; anything else is a miss. */
  predicate IsHeartbeat(r: Receipt)
  {
    r.Returned? && r.msg.Some? && r.msg.value.HeartbeatMsg?
  }

  /** The two fields the receiver keeps between calls. */
  datatype ReceiverState = ReceiverState(missed: nat, connected: bool)

  /** A freshly created receiver: nothing missed yet, and not connected. */
  const INITIAL: ReceiverState := ReceiverState(0, false)

  /** The receiver never reports connected once the threshold has been reached. */
  predicate Consistent(s: ReceiverState)
  {
    s.connected ==> s.missed < DISCONNECT_THRESHOLD
  }

  /** The effect of one receive outcome on the receiver's fields. */
  function Step(s: ReceiverState, r: Receipt): (t: ReceiverState)
    ensures IsHeartbeat(r) ==> t == ReceiverState(0, true)
    ensures !IsHeartbeat(r) ==> t.missed == s.missed + 1
    ensures !IsHeartbeat(r) && t.missed < DISCONNECT_THRESHOLD ==> t.connected == s.connected
    ensures !IsHeartbeat(r) && t.missed >= DISCONNECT_THRESHOLD ==> !t.connected
    ensures Consistent(t)
  {
    match r
    case Returned(msg) =>
      if msg.Some? && msg.value.HeartbeatMsg? then
        ReceiverState(0, true)
      else
        var missed := s.missed + 1;
        ReceiverState(missed, if missed >= DISCONNECT_THRESHOLD then false else s.connected)
    case Raised =>
      var missed := s.missed + 1;
      ReceiverState(missed, if missed >= DISCONNECT_THRESHOLD then false else s.connected)
  }

  /** The state after the receive outcomes `rs`, oldest first, starting from `s`. */
  function RunAll(s: ReceiverState, rs: seq<Receipt>): ReceiverState
    decreases |rs|
  {
    if rs == [] then s else Step(RunAll(s, rs[..|rs| - 1]), rs[|rs| - 1])
  }

  /** Some outcome in `rs` was a heartbeat. */
  predicate SawHeartbeat(rs: seq<Receipt>)
  {
    exists i :: 0 <= i < |rs| && IsHeartbeat(rs[i])
  }

  /** How many outcomes follow the last heartbeat in `rs` (all of them if there is none). */
  function TrailingMisses(rs: seq<Receipt>): (n: nat)
    ensures n <= |rs|
    ensures forall i :: |rs| - n <= i < |rs| ==> !IsHeartbeat(rs[i])
    ensures n < |rs| ==> IsHeartbeat(rs[|rs| - 1 - n])
    decreases |rs|
  {
    if rs == [] then 0
    else if IsHeartbeat(rs[|rs| - 1]) then 0
    else TrailingMisses(rs[..|rs| - 1]) + 1
  }

  /**
    What a whole sequence of outcomes does: after the last heartbeat the
    counter is the number of misses since then and the receiver is connected
    while that number is below the threshold; with no heartbeat at all the
    misses add to the starting counter and, once there was at least one, the
    starting flag survives only while the total stays below the threshold.
    This holds from any state, consistent or not.
   */
  lemma {:induction false} RunAllCharacterised(s: ReceiverState, rs: seq<Receipt>)
    ensures SawHeartbeat(rs) ==>
      RunAll(s, rs) == ReceiverState(TrailingMisses(rs), TrailingMisses(rs) < DISCONNECT_THRESHOLD)
    ensures !SawHeartbeat(rs) ==> RunAll(s, rs).missed == s.missed + |rs|
    ensures rs != [] && !SawHeartbeat(rs) ==>
      RunAll(s, rs) == ReceiverState(s.missed + |rs|, s.connected && s.missed + |rs| < DISCONNECT_THRESHOLD)
    decreases |rs|
  {
    if rs != [] {
      var init, last := rs[..|rs| - 1], rs[|rs| - 1];
      RunAllCharacterised(s, init);
      if IsHeartbeat(last) {
        assert SawHeartbeat(rs) by { assert IsHeartbeat(rs[|rs| - 1]); }
      } else {
        assert SawHeartbeat(rs) <==> SawHeartbeat(init) by {
          if SawHeartbeat(rs) {
            var i :| 0 <= i < |rs| && IsHeartbeat(rs[i]);
            assert i < |rs| - 1 && init[i] == rs[i];
          }
          if SawHeartbeat(init) {
            var i :| 0 <= i < |init| && IsHeartbeat(init[i]);
            assert rs[i] == init[i];
          }
        }
      }
    }
  }

  /** Misses only: the counter grows by one per miss, and the flag is lost at the threshold. */
  lemma {:induction false} ConsecutiveMisses(s: ReceiverState, rs: seq<Receipt>)
    requires forall i :: 0 <= i < |rs| ==> !IsHeartbeat(rs[i])
    ensures RunAll(s, rs).missed == s.missed + |rs|
    ensures rs != [] ==> (RunAll(s, rs).connected <==> s.connected && s.missed + |rs| < DISCONNECT_THRESHOLD)
  {
    RunAllCharacterised(s, rs);
  }

  /** Five consecutive misses from any state leave the receiver disconnected. */
  lemma {:induction false} DisconnectedAfterThreshold(s: ReceiverState, rs: seq<Receipt>)
    requires |rs| >= DISCONNECT_THRESHOLD
    requires forall i :: 0 <= i < |rs| ==> !IsHeartbeat(rs[i])
    ensures !RunAll(s, rs).connected
    ensures RunAll(s, rs).missed >= DISCONNECT_THRESHOLD
  {
    ConsecutiveMisses(s, rs);
  }

  /** A disconnected receiver stays disconnected while heartbeats keep missing. */
  lemma {:induction false} StaysDisconnected(s: ReceiverState, rs: seq<Receipt>)
    requires !s.connected
    requires forall i :: 0 <= i < |rs| ==> !IsHeartbeat(rs[i])
    ensures !RunAll(s, rs).connected
  {
    ConsecutiveMisses(s, rs);
  }

  /** One heartbeat after any history resets the counter and connects. */
  lemma {:induction false} HeartbeatReconnects(s: ReceiverState, rs: seq<Receipt>, r: Receipt)
    requires IsHeartbeat(r)
    ensures RunAll(s, rs + [r]) == ReceiverState(0, true)
  {
    assert (rs + [r])[..|rs + [r]| - 1] == rs;
  }

  /**
    From a freshly created receiver, every reachable state keeps connected
    implying fewer than five misses. The converse fails at the start: INITIAL
    is disconnected with no miss counted.
   */
  lemma ReachableConsistent(rs: seq<Receipt>)
    ensures Consistent(RunAll(INITIAL, rs))
  {
  }

  /** The receiver object: `HeartbeatReceiver.create`, `__init__` and `run`. */
  class HeartbeatReceiver {
    const connection: Connection
    const logger: Logger
    var missedHeartbeats: nat
    var isConnected: bool

    /** The two mutable fields as a value. */
    function State(): ReceiverState
      reads this
    {
      ReceiverState(missedHeartbeats, isConnected)
    }

    /** The object's invariant: connected implies fewer than five misses (`Consistent`), kept by every call. */
    ghost predicate Valid()
      reads this
    {
      Consistent(State())
    }

    constructor (connection: Connection, logger: Logger)
      ensures this.connection == connection && this.logger == logger
      ensures State() == INITIAL && Valid()
    {
      this.connection := connection;
      this.logger := logger;
      missedHeartbeats := 0;
      isConnected := false;
    }

    /** Fails, returning no receiver, exactly when the connection or the logger is missing. */
    static method Create(connection: Connection?, logger: Logger?) returns (ok: bool, receiver: HeartbeatReceiver?)
      ensures ok <==> connection != null && logger != null
      ensures ok ==> receiver != null && fresh(receiver) && receiver.State() == INITIAL && receiver.Valid()
      ensures ok ==> receiver.connection == connection && receiver.logger == logger
      ensures !ok ==> receiver == null
    {
      if connection == null {
        return false, null;
      }
      if logger == null {
        return false, null;
      }
      receiver := new HeartbeatReceiver(connection, logger);
      ok := true;
    }

    /**
      One receive outcome: a heartbeat resets the counter and connects, a miss
      or an exception counts one more miss and disconnects at the threshold.
      Always succeeds, reporting the flag as "connected" or "disconnected".
     */
    method Run(r: Receipt) returns (success: bool, status: string)
      modifies this
      ensures State() == Step(old(State()), r)
      ensures Valid()
      ensures success
      ensures status == if isConnected then "connected" else "disconnected"
    {
      match r {
        case Returned(msg) =>
          if msg.Some? && msg.value.HeartbeatMsg? {
            missedHeartbeats := 0;
            isConnected := true;
          } else {
            missedHeartbeats := missedHeartbeats + 1;
            if missedHeartbeats >= DISCONNECT_THRESHOLD {
              isConnected := false;
            }
          }
        case Raised =>
          missedHeartbeats := missedHeartbeats + 1;
          if missedHeartbeats >= DISCONNECT_THRESHOLD {
            isConnected := false;
          }
      }
      status := if isConnected then "connected" else "disconnected";
      success := true;
    }
  }
}
