/**
  The command decision: one call of `Command.Run` looks at one telemetry
  snapshot, sends at most one COMMAND_LONG towards a fixed target, and keeps a
  lifetime sum of the velocities it has seen.

  Floats are reals. `math.atan2` is a library call whose trigonometry is not
  part of this model: it is passed in as the function `atan2`. `math.degrees`
  is the exact conversion `r * 180 / PI`.
 */
module Command {
  import opened Mavlink
  import T = Telemetry

  /** A 3D point in the telemetry frame. */
  datatype Position = Position(x: real, y: real, z: real)

  /** Altitude error (m) up to which no altitude command is sent. */
  const HEIGHT_TOLERANCE: real := 0.5
  /** Heading error (deg) up to which no yaw command is sent. */
  const ANGLE_TOLERANCE: real := 5.0
  /** Climb or descent rate of an altitude command (m/s). */
  const Z_SPEED: real := 1.0
  /** Turn rate of a yaw command (deg/s). */
  const TURNING_SPEED: real := 5.0
  /** `math.pi`. */
  const PI: real := 3.141592653589793

  /** `math.degrees`: radians to degrees. */
  function Degrees(r: real): (d: real)
    ensures d >= 0.0 <==> r >= 0.0
    ensures -PI <= r <= PI ==> -180.0 <= d <= 180.0
  {
    r * (180.0 / PI)
  }

  /** `k` whole turns, in radians. */
  function Turns(k: int): real
  {
    2.0 * PI * (k as real)
  }

  /** The first normalisation loop: subtract whole turns while above PI. */
  function WrapDown(d: real): (r: real)
    ensures r <= PI
    ensures d <= PI ==> r == d
    ensures d > PI ==> -PI < r
    decreases (d - PI).Floor
  {
    if d > PI then WrapDown(d - 2.0 * PI) else d
  }

  /** The second normalisation loop: add whole turns while below -PI. */
  function WrapUp(d: real): (r: real)
    ensures -PI <= r
    ensures d >= -PI ==> r == d
    ensures d < -PI ==> r < PI
    decreases (-PI - d).Floor
  {
    if d < -PI then WrapUp(d + 2.0 * PI) else d
  }

  /**
    The heading error after both loops: it lies in [-PI, PI], closed at both
    ends, and an error already in that range is left alone.
   */
  function Normalize(d: real): (r: real)
    ensures -PI <= r <= PI
    ensures -PI <= d <= PI ==> r == d
  {
    WrapUp(WrapDown(d))
  }

  /** The first loop changes the error by whole turns only. */
  lemma {:induction false} WrapDownWholeTurns(d: real)
    ensures exists k :: WrapDown(d) == d + Turns(k)
    decreases (d - PI).Floor
  {
    if d > PI {
      WrapDownWholeTurns(d - 2.0 * PI);
      var k :| WrapDown(d - 2.0 * PI) == d - 2.0 * PI + Turns(k);
      assert WrapDown(d) == d + Turns(k - 1);
    } else {
      assert WrapDown(d) == d + Turns(0);
    }
  }

  /** The second loop changes the error by whole turns only. */
  lemma {:induction false} WrapUpWholeTurns(d: real)
    ensures exists k :: WrapUp(d) == d + Turns(k)
    decreases (-PI - d).Floor
  {
    if d < -PI {
      WrapUpWholeTurns(d + 2.0 * PI);
      var k :| WrapUp(d + 2.0 * PI) == d + 2.0 * PI + Turns(k);
      assert WrapUp(d) == d + Turns(k + 1);
    } else {
      assert WrapUp(d) == d + Turns(0);
    }
  }

  /** Normalising changes the heading error by a whole number of turns. */
  lemma {:induction false} NormalizeWholeTurns(d: real)
    ensures exists k :: Normalize(d) == d + Turns(k)
  {
    WrapDownWholeTurns(d);
    var k1 :| WrapDown(d) == d + Turns(k1);
    WrapUpWholeTurns(WrapDown(d));
    var k2 :| Normalize(d) == WrapDown(d) + Turns(k2);
    assert Normalize(d) == d + Turns(k1 + k2);
  }

  /** The two while-loops of `Command.run` that normalise `delta_yaw`. */
  method NormalizeYaw(delta: real) returns (r: real)
    ensures r == Normalize(delta)
  {
    r := delta;
    while r > PI
      invariant WrapDown(r) == WrapDown(delta)
      decreases (r - PI).Floor
    {
      r := r - 2.0 * PI;
    }
    while r < -PI
      invariant WrapUp(r) == Normalize(delta)
      decreases (-PI - r).Floor
    {
      r := r + 2.0 * PI;
    }
  }

  /** What a call reports after sending a command. */
  datatype Status = ChangeAltitude(deltaZ: real) | ChangeYaw(deltaYawDeg: real)

  /** The altitude error `target.z - z`, when the snapshot has a z. */
  function AltitudeError(target: Position, d: T.TelemetryData): (e: Option<real>)
    ensures e.Some? <==> d.z.Some?
    ensures e.Some? ==> d.z.value + e.value == target.z
  {
    if d.z.Some? then Some(target.z - d.z.value) else None
  }

  /**
    The heading error in degrees towards the target, when the snapshot has x, y
    and yaw: the bearing `atan2(dy, dx)` minus yaw, normalised, in degrees.
   */
  function YawError(target: Position, d: T.TelemetryData, atan2: (real, real) -> real): (e: Option<real>)
    ensures e.Some? <==> d.x.Some? && d.y.Some? && d.yaw.Some?
    ensures e.Some? ==> -180.0 <= e.value <= 180.0
  {
    if d.x.Some? && d.y.Some? && d.yaw.Some? then
      var desiredYaw := atan2(target.y - d.y.value, target.x - d.x.value);
      Some(Degrees(Normalize(desiredYaw - d.yaw.value)))
    else
      None
  }

  /** The altitude check fires: z is known and off by more than the tolerance. */
  predicate AltitudeOff(target: Position, d: T.TelemetryData)
  {
    AltitudeError(target, d).Some? && Abs(AltitudeError(target, d).value) > HEIGHT_TOLERANCE
  }

  /** The yaw check fires: x, y and yaw are known and the heading is off by more than the tolerance. */
  predicate YawOff(target: Position, d: T.TelemetryData, atan2: (real, real) -> real)
  {
    YawError(target, d, atan2).Some? && Abs(YawError(target, d, atan2).value) > ANGLE_TOLERANCE
  }

  /**
    The decision of one call: the altitude check first, and only when it does
    not fire the yaw check; nothing for a missing snapshot.
   */
  function Decide(target: Position, data: Option<T.TelemetryData>, atan2: (real, real) -> real): (r: Option<Status>)
    ensures data.None? ==> r.None?
    ensures data.Some? && AltitudeOff(target, data.value) ==>
              r == Some(ChangeAltitude(AltitudeError(target, data.value).value))
    ensures data.Some? && !AltitudeOff(target, data.value) && YawOff(target, data.value, atan2) ==>
              r == Some(ChangeYaw(YawError(target, data.value, atan2).value))
    ensures r.Some? ==> data.Some? && (AltitudeOff(target, data.value) || YawOff(target, data.value, atan2))
  {
    if data.None? then None
    else if AltitudeOff(target, data.value) then Some(ChangeAltitude(AltitudeError(target, data.value).value))
    else if YawOff(target, data.value, atan2) then Some(ChangeYaw(YawError(target, data.value, atan2).value))
    else None
  }

  /**
    Turn direction of a yaw command: 1 (counter-clockwise, per the source's comment) for a non-negative
    error, else -1; with the magnitude it gives back the signed error.
   */
  function Direction(deltaYawDeg: real): (r: real)
    ensures r == 1.0 || r == -1.0
    ensures r == 1.0 <==> deltaYawDeg >= 0.0
    ensures Abs(deltaYawDeg) * r == deltaYawDeg
  {
    if deltaYawDeg >= 0.0 then 1.0 else -1.0
  }

  /** The COMMAND_LONG sent for a status: target system 1, component 0, no confirmation. */
  function CommandFor(target: Position, s: Status): (c: CommandLong)
    ensures c.targetSystem == 1 && c.targetComponent == 0 && c.confirmation == 0
    ensures s.ChangeAltitude? ==>
              c.command == MAV_CMD_CONDITION_CHANGE_ALT && c.param1 == Z_SPEED && c.param7 == target.z &&
              c.param2 == 0.0 && c.param3 == 0.0 && c.param4 == 0.0 && c.param5 == 0.0 && c.param6 == 0.0
    ensures s.ChangeYaw? ==>
              c.command == MAV_CMD_CONDITION_YAW && c.param1 >= 0.0 && c.param1 * c.param3 == s.deltaYawDeg &&
              (c.param3 == 1.0 || c.param3 == -1.0) && (c.param3 == 1.0 <==> s.deltaYawDeg >= 0.0) &&
              c.param2 == TURNING_SPEED && c.param4 == 1.0 &&
              c.param5 == 0.0 && c.param6 == 0.0 && c.param7 == 0.0
  {
    match s
    case ChangeAltitude(_) =>
      CommandLong(1, 0, MAV_CMD_CONDITION_CHANGE_ALT, 0, Z_SPEED, 0.0, 0.0, 0.0, 0.0, 0.0, target.z)
    case ChangeYaw(deg) =>
      CommandLong(1, 0, MAV_CMD_CONDITION_YAW, 0, Abs(deg), TURNING_SPEED, Direction(deg), 1.0, 0.0, 0.0, 0.0)
  }

  /** The commands one call sends for its decision: none or one. */
  function Sent(target: Position, r: Option<Status>): (cs: seq<CommandLong>)
    ensures |cs| <= 1
    ensures |cs| == 1 <==> r.Some?
  {
    if r.Some? then [CommandFor(target, r.value)] else []
  }

  /**
    An altitude command climbs or descends at Z_SPEED to the target altitude,
    and is sent only for an error above the tolerance, measured from the
    snapshot's z.
   */
  lemma AltitudeCommandSent(target: Position, d: T.TelemetryData, atan2: (real, real) -> real, deltaZ: real)
    requires Decide(target, Some(d), atan2) == Some(ChangeAltitude(deltaZ))
    ensures d.z.Some? && d.z.value + deltaZ == target.z && Abs(deltaZ) > HEIGHT_TOLERANCE
    ensures Sent(target, Some(ChangeAltitude(deltaZ))) ==
              [CommandLong(1, 0, MAV_CMD_CONDITION_CHANGE_ALT, 0, Z_SPEED, 0.0, 0.0, 0.0, 0.0, 0.0, target.z)]
  {
  }

  /**
    A yaw command is sent only when the altitude is within tolerance; it turns
    by more than the tolerance but at most half a turn, at TURNING_SPEED,
    relative to the current heading, with direction 1 exactly when the
    normalised error in radians is not negative.
   */
  lemma YawCommandSent(target: Position, d: T.TelemetryData, atan2: (real, real) -> real, deltaYawDeg: real)
    requires Decide(target, Some(d), atan2) == Some(ChangeYaw(deltaYawDeg))
    ensures !AltitudeOff(target, d)
    ensures d.x.Some? && d.y.Some? && d.yaw.Some?
    ensures var c := CommandFor(target, ChangeYaw(deltaYawDeg));
            && c.command == MAV_CMD_CONDITION_YAW
            && ANGLE_TOLERANCE < c.param1 <= 180.0
            && c.param2 == TURNING_SPEED
            && c.param4 == 1.0
            && (c.param3 == 1.0 <==>
                  Normalize(atan2(target.y - d.y.value, target.x - d.x.value) - d.yaw.value) >= 0.0)
            && (c.param3 == 1.0 || c.param3 == -1.0)
  {
  }

  /** With both errors above tolerance only the altitude command goes out. */
  lemma AltitudeBlocksYaw(target: Position, d: T.TelemetryData, atan2: (real, real) -> real)
    requires AltitudeOff(target, d) && YawOff(target, d, atan2)
    ensures Sent(target, Decide(target, Some(d), atan2)) ==
              [CommandFor(target, ChangeAltitude(target.z - d.z.value))]
  {
  }

  /** An altitude error of exactly 0.5 m sends no altitude command; 0.51 m sends one. */
  lemma HeightToleranceBoundary(target: Position, d: T.TelemetryData, atan2: (real, real) -> real)
    requires d.z.Some?
    ensures target.z - d.z.value == 0.5 ==>
              !AltitudeOff(target, d) &&
              !(Decide(target, Some(d), atan2).Some? && Decide(target, Some(d), atan2).value.ChangeAltitude?)
    ensures target.z - d.z.value == 0.51 ==>
              Decide(target, Some(d), atan2) == Some(ChangeAltitude(0.51))
  {
  }

  /** A raw heading error of 200 degrees wraps to -160 degrees and turns with direction -1. */
  lemma YawWrapsAround(target: Position, d: T.TelemetryData, atan2: (real, real) -> real)
    requires d.z.Some? && d.z.value == target.z
    requires d.x.Some? && d.y.Some? && d.yaw.Some?
    requires atan2(target.y - d.y.value, target.x - d.x.value) - d.yaw.value == 200.0 * PI / 180.0
    ensures Decide(target, Some(d), atan2) == Some(ChangeYaw(-160.0))
    ensures CommandFor(target, ChangeYaw(-160.0)).param1 == 160.0
    ensures CommandFor(target, ChangeYaw(-160.0)).param3 == -1.0
  {
    var raw := 200.0 * PI / 180.0;
    assert WrapDown(raw - 2.0 * PI) == raw - 2.0 * PI;
    assert Normalize(raw) == -160.0 * PI / 180.0;
  }

  /** A snapshot that carries only a position and a yaw. */
  function Snapshot(x: real, y: real, z: real, yaw: real): T.TelemetryData
  {
    T.TelemetryData(None, Some(x), Some(y), Some(z), None, None, None, None, None, Some(yaw), None, None, None)
  }

  /** Target (0, 0, 10) seen from (0, 0, 8): climb by 2 m to altitude 10. */
  lemma ClimbScenario(atan2: (real, real) -> real)
    ensures Decide(Position(0.0, 0.0, 10.0), Some(Snapshot(0.0, 0.0, 8.0, 0.0)), atan2) == Some(ChangeAltitude(2.0))
    ensures CommandFor(Position(0.0, 0.0, 10.0), ChangeAltitude(2.0)).param7 == 10.0
  {
  }

  /** Target (10, 0, 5) seen from (0, 0, 5) heading 0: on altitude and on bearing, so no command. */
  lemma OnTargetScenario(atan2: (real, real) -> real)
    requires atan2(0.0, 10.0) == 0.0
    ensures Decide(Position(10.0, 0.0, 5.0), Some(Snapshot(0.0, 0.0, 5.0, 0.0)), atan2) == None
  {
  }

  /** The velocity fields never change the decision. */
  lemma DecisionIgnoresVelocity(target: Position, d: T.TelemetryData, atan2: (real, real) -> real,
                                vx: Option<real>, vy: Option<real>, vz: Option<real>)
    ensures Decide(target, Some(d), atan2) ==
            Decide(target, Some(d.(xVelocity := vx, yVelocity := vy, zVelocity := vz)), atan2)
  {
  }

  /** The snapshot carries all three velocity components. */
  predicate HasVelocity(d: T.TelemetryData)
  {
    d.xVelocity.Some? && d.yVelocity.Some? && d.zVelocity.Some?
  }

  /** The decider: `Command.create`, `__init__` and `run`. */
  class Command {
    const connection: Connection
    const target: Position
    const logger: Logger
    var totalVelocityX: real
    var totalVelocityY: real
    var totalVelocityZ: real
    var sampleCount: nat

    constructor (connection: Connection, target: Position, logger: Logger)
      ensures this.connection == connection && this.target == target && this.logger == logger
      ensures totalVelocityX == 0.0 && totalVelocityY == 0.0 && totalVelocityZ == 0.0
      ensures sampleCount == 0
    {
      this.connection := connection;
      this.target := target;
      this.logger := logger;
      totalVelocityX, totalVelocityY, totalVelocityZ := 0.0, 0.0, 0.0;
      sampleCount := 0;
    }

    /** Fails, returning no decider, exactly when the connection, the target or the logger is missing. */
    static method Create(connection: Connection?, target: Option<Position>, logger: Logger?)
      returns (ok: bool, command: Command?)
      ensures ok <==> connection != null && target.Some? && logger != null
      ensures ok ==> command != null && fresh(command)
      ensures ok ==> command.connection == connection && command.target == target.value && command.logger == logger
      ensures ok ==> command.totalVelocityX == 0.0 && command.totalVelocityY == 0.0 && command.totalVelocityZ == 0.0
      ensures ok ==> command.sampleCount == 0
      ensures !ok ==> command == null
    {
      if connection == null {
        return false, null;
      }
      if target.None? {
        return false, null;
      }
      if logger == null {
        return false, null;
      }
      command := new Command(connection, target.value, logger);
      ok := true;
    }

    /**
      The lifetime velocity sums: a snapshot with all three components adds each
      to its total and counts one more sample; any other snapshot changes nothing.
     */
    method AccumulateVelocity(d: T.TelemetryData)
      modifies this
      ensures HasVelocity(d) ==>
                totalVelocityX == old(totalVelocityX) + d.xVelocity.value &&
                totalVelocityY == old(totalVelocityY) + d.yVelocity.value &&
                totalVelocityZ == old(totalVelocityZ) + d.zVelocity.value &&
                sampleCount == old(sampleCount) + 1
      ensures !HasVelocity(d) ==>
                totalVelocityX == old(totalVelocityX) && totalVelocityY == old(totalVelocityY) &&
                totalVelocityZ == old(totalVelocityZ) && sampleCount == old(sampleCount)
    {
      if HasVelocity(d) {
        totalVelocityX := totalVelocityX + d.xVelocity.value;
        totalVelocityY := totalVelocityY + d.yVelocity.value;
        totalVelocityZ := totalVelocityZ + d.zVelocity.value;
        sampleCount := sampleCount + 1;
      }
    }

    /**
      One correction cycle. Succeeds exactly when it sends a command, and then
      reports which; sends at most one command. The velocity sums grow by the
      snapshot's velocity, and the sample count by one, exactly when all three
      components are present; they never influence the decision.
     */
    method Run(data: Option<T.TelemetryData>, atan2: (real, real) -> real) returns (ok: bool, status: Option<Status>)
      modifies this, connection
      ensures status == Decide(target, data, atan2)
      ensures ok <==> status.Some?
      ensures connection.sent == old(connection.sent) + Sent(target, status)
      ensures |connection.sent| <= |old(connection.sent)| + 1
      ensures data.Some? && HasVelocity(data.value) ==>
                totalVelocityX == old(totalVelocityX) + data.value.xVelocity.value &&
                totalVelocityY == old(totalVelocityY) + data.value.yVelocity.value &&
                totalVelocityZ == old(totalVelocityZ) + data.value.zVelocity.value &&
                sampleCount == old(sampleCount) + 1
      ensures !(data.Some? && HasVelocity(data.value)) ==>
                totalVelocityX == old(totalVelocityX) && totalVelocityY == old(totalVelocityY) &&
                totalVelocityZ == old(totalVelocityZ) && sampleCount == old(sampleCount)
      ensures sampleCount >= old(sampleCount)
    {
      if data.None? {
        return false, None;
      }
      var d := data.value;

      AccumulateVelocity(d);

      if d.z.Some? {
        var deltaZ := target.z - d.z.value;
        if Abs(deltaZ) > HEIGHT_TOLERANCE {
          connection.CommandLongSend(
            CommandLong(1, 0, MAV_CMD_CONDITION_CHANGE_ALT, 0, Z_SPEED, 0.0, 0.0, 0.0, 0.0, 0.0, target.z));
          return true, Some(ChangeAltitude(deltaZ));
        }
      }

      if d.x.Some? && d.y.Some? && d.yaw.Some? {
        var dx := target.x - d.x.value;
        var dy := target.y - d.y.value;
        var desiredYaw := atan2(dy, dx);
        var deltaYaw := desiredYaw - d.yaw.value;
        deltaYaw := NormalizeYaw(deltaYaw);
        var deltaYawDeg := Degrees(deltaYaw);
        assert YawError(target, d, atan2) == Some(deltaYawDeg);
        if Abs(deltaYawDeg) > ANGLE_TOLERANCE {
          var direction := Direction(deltaYawDeg);
          connection.CommandLongSend(
            CommandLong(1, 0, MAV_CMD_CONDITION_YAW, 0, Abs(deltaYawDeg), TURNING_SPEED, direction, 1.0, 0.0, 0.0, 0.0));
          return true, Some(ChangeYaw(deltaYawDeg));
        }
      }

      return false, None;
    }
  }
}
