/**
  Telemetry fusion: one call of `Telemetry.Run` receives ATTITUDE (30) and
  LOCAL_POSITION_NED (32) messages until it holds one of each, and fuses the
  latest of each into a `TelemetryData` snapshot.

  The wall-clock budget of a call and the blocking receives made within it are
  given as `receives`: one entry per receive made before the budget ran out,
  `None` for a receive that returned nothing.
 */
module Telemetry {
  import opened Mavlink

  /** A fused snapshot. Every field may be absent; `Run` fills them all. */
  datatype TelemetryData = TelemetryData(
    timeSinceBoot: Option<nat>,  // ms
    x: Option<real>,             // m
    y: Option<real>,             // m
    z: Option<real>,             // m
    xVelocity: Option<real>,     // m/s
    yVelocity: Option<real>,     // m/s
    zVelocity: Option<real>,     // m/s
    roll: Option<real>,          // rad
    pitch: Option<real>,         // rad
    yaw: Option<real>,           // rad
    rollSpeed: Option<real>,     // rad/s
    pitchSpeed: Option<real>,    // rad/s
    yawSpeed: Option<real>)      // rad/s

  predicate IsAttitude(m: Option<Message>)
  {
    m.Some? && m.value.AttitudeMsg?
  }

  predicate IsPosition(m: Option<Message>)
  {
    m.Some? && m.value.LocalPositionNedMsg?
  }

  /** The latest ATTITUDE among `s`, if any. */
  function LastAttitude(s: seq<Option<Message>>): (r: Option<Attitude>)
    ensures r.None? <==> forall i :: 0 <= i < |s| ==> !IsAttitude(s[i])
    ensures r.Some? ==> exists i :: 0 <= i < |s| && s[i] == Some(AttitudeMsg(r.value)) &&
                                    forall j :: i < j < |s| ==> !IsAttitude(s[j])
    decreases |s|
  {
    if s == [] then None
    else if IsAttitude(s[|s| - 1]) then Some(s[|s| - 1].value.attitude)
    else
      var r := LastAttitude(s[..|s| - 1]);
      assert forall i :: 0 <= i < |s| - 1 ==> s[..|s| - 1][i] == s[i];
      r
  }

  /** The latest LOCAL_POSITION_NED among `s`, if any. */
  function LastPosition(s: seq<Option<Message>>): (r: Option<LocalPositionNed>)
    ensures r.None? <==> forall i :: 0 <= i < |s| ==> !IsPosition(s[i])
    ensures r.Some? ==> exists i :: 0 <= i < |s| && s[i] == Some(LocalPositionNedMsg(r.value)) &&
                                    forall j :: i < j < |s| ==> !IsPosition(s[j])
    decreases |s|
  {
    if s == [] then None
    else if IsPosition(s[|s| - 1]) then Some(s[|s| - 1].value.position)
    else
      var r := LastPosition(s[..|s| - 1]);
      assert forall i :: 0 <= i < |s| - 1 ==> s[..|s| - 1][i] == s[i];
      r
  }

  /** Both an ATTITUDE and a LOCAL_POSITION_NED are among `s`. */
  predicate HasBoth(s: seq<Option<Message>>)
  {
    LastAttitude(s).Some? && LastPosition(s).Some?
  }

  /**
    The snapshot built from one attitude and one position reading, stamped with
    the later of their two boot times.
   */
  function Fuse(a: Attitude, p: LocalPositionNed): (d: TelemetryData)
    ensures d.timeSinceBoot.Some?
    ensures d.timeSinceBoot.value >= a.timeBootMs && d.timeSinceBoot.value >= p.timeBootMs
    ensures d.timeSinceBoot.value == a.timeBootMs || d.timeSinceBoot.value == p.timeBootMs
  {
    TelemetryData(
      timeSinceBoot := Some(Max(a.timeBootMs, p.timeBootMs)),
      x := Some(p.x), y := Some(p.y), z := Some(p.z),
      xVelocity := Some(p.vx), yVelocity := Some(p.vy), zVelocity := Some(p.vz),
      roll := Some(a.roll), pitch := Some(a.pitch), yaw := Some(a.yaw),
      rollSpeed := Some(a.rollspeed), pitchSpeed := Some(a.pitchspeed), yawSpeed := Some(a.yawspeed))
  }

  /** A newer message of a kind replaces the older one; anything else leaves both slots as they were. */
  lemma LaterOverwrites(s: seq<Option<Message>>, m: Option<Message>)
    ensures IsAttitude(m) ==> LastAttitude(s + [m]) == Some(m.value.attitude)
    ensures IsPosition(m) ==> LastPosition(s + [m]) == Some(m.value.position)
    ensures !IsAttitude(m) ==> LastAttitude(s + [m]) == LastAttitude(s)
    ensures !IsPosition(m) ==> LastPosition(s + [m]) == LastPosition(s)
  {
    assert (s + [m])[..|s|] == s;
  }

  /** Reading one more receive of a batch updates the slot of its kind only. */
  lemma Advance(s: seq<Option<Message>>, i: nat)
    requires i < |s|
    ensures LastAttitude(s[..i + 1]) == if IsAttitude(s[i]) then Some(s[i].value.attitude) else LastAttitude(s[..i])
    ensures LastPosition(s[..i + 1]) == if IsPosition(s[i]) then Some(s[i].value.position) else LastPosition(s[..i])
  {
    LaterOverwrites(s[..i], s[i]);
    assert s[..i + 1] == s[..i] + [s[i]];
  }

  /** Once a prefix holds both kinds, every longer prefix does too. */
  lemma {:induction false} HasBothMonotone(s: seq<Option<Message>>, j: nat, k: nat)
    requires j <= k <= |s|
    requires HasBoth(s[..j])
    ensures HasBoth(s[..k])
  {
    var i :| 0 <= i < j && s[..j][i] == Some(AttitudeMsg(LastAttitude(s[..j]).value));
    assert IsAttitude(s[..k][i]);
    var i' :| 0 <= i' < j && s[..j][i'] == Some(LocalPositionNedMsg(LastPosition(s[..j]).value));
    assert IsPosition(s[..k][i']);
  }

  /** Messages from a later batch that holds no attitude leave the earlier batch's attitude in force. */
  lemma {:induction false} LastAttitudeAppend(first: seq<Option<Message>>, second: seq<Option<Message>>)
    requires LastAttitude(second).None?
    ensures LastAttitude(first + second) == LastAttitude(first)
    decreases |second|
  {
    if second != [] {
      var init := second[..|second| - 1];
      assert !IsAttitude(second[|second| - 1]);
      assert LastAttitude(init).None? by {
        forall i | 0 <= i < |init| ensures !IsAttitude(init[i]) {
          assert init[i] == second[i];
        }
      }
      LastAttitudeAppend(first, init);
      assert (first + second)[..|first + second| - 1] == first + init;
    } else {
      assert first + second == first;
    }
  }

  /**
    A partial reading is lost at the end of a call: when one call ends with only
    an attitude and the next receives only a position, the next call fails, although
    the two batches together hold both kinds.
   */
  lemma {:induction false} PartialReadingDropped(first: seq<Option<Message>>, second: seq<Option<Message>>)
    requires LastAttitude(first).Some? && LastPosition(first).None?
    requires LastAttitude(second).None? && LastPosition(second).Some?
    ensures !HasBoth(first) && !HasBoth(second)
    ensures HasBoth(first + second)
  {
    LastAttitudeAppend(first, second);
    var i :| 0 <= i < |second| && second[i] == Some(LocalPositionNedMsg(LastPosition(second).value));
    assert IsPosition((first + second)[|first| + i]);
  }

  /** The telemetry reader: `Telemetry.create`, `__init__` and `run`. */
  class Telemetry {
    const connection: Connection
    const logger: Logger

    constructor (connection: Connection, logger: Logger)
      ensures this.connection == connection && this.logger == logger
    {
      this.connection := connection;
      this.logger := logger;
    }

    /** Fails, returning no reader, exactly when the connection or the logger is missing. */
    static method Create(connection: Connection?, logger: Logger?) returns (ok: bool, reader: Telemetry?)
      ensures ok <==> connection != null && logger != null
      ensures ok ==> reader != null && fresh(reader) && reader.connection == connection && reader.logger == logger
      ensures !ok ==> reader == null
    {
      if connection == null {
        return false, null;
      }
      if logger == null {
        return false, null;
      }
      reader := new Telemetry(connection, logger);
      ok := true;
    }

    /**
      One call: both slots start empty, each receive refills the slot of its
      kind, and the call returns the fused snapshot at the first receive after
      which both slots are filled, having used exactly `received` receives. If
      the receives run out first, the call fails and whatever it held is dropped.
     */
    method Run(receives: seq<Option<Message>>) returns (ok: bool, data: Option<TelemetryData>, received: nat)
      ensures ok <==> HasBoth(receives)
      ensures ok ==> 0 < received <= |receives|
      ensures ok ==> HasBoth(receives[..received]) && !HasBoth(receives[..received - 1])
      ensures ok ==> data == Some(Fuse(LastAttitude(receives[..received]).value,
                                       LastPosition(receives[..received]).value))
      ensures !ok ==> data.None? && received == |receives|
    {
      var attitudeData: Option<Attitude> := None;
      var positionData: Option<LocalPositionNed> := None;
      var i := 0;
      while i < |receives|
        invariant 0 <= i <= |receives|
        invariant attitudeData == LastAttitude(receives[..i])
        invariant positionData == LastPosition(receives[..i])
        invariant !(attitudeData.Some? && positionData.Some?)
      {
        var msg := receives[i];
        Advance(receives, i);
        i := i + 1;
        if msg.Some? {
          match msg.value {
            case AttitudeMsg(a) =>
              attitudeData := Some(a);
            case LocalPositionNedMsg(p) =>
              positionData := Some(p);
            case _ =>
          }
        }
        if attitudeData.Some? && positionData.Some? {
          data := Some(Fuse(attitudeData.value, positionData.value));
          HasBothMonotone(receives, i, |receives|);
          assert receives[..|receives|] == receives;
          return true, data, i;
        }
      }
      assert receives[..i] == receives;
      return false, None, |receives|;
    }
  }
}
