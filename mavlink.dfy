/**
  The part of the MAVLink common message set that the ground-station loop uses,
  and the link it talks over.

  Messages are values; the connection is an object. What the connection
  receives is handed to each component as an explicit input (see the
  components), and what it sends is recorded in the ghost list `sent`, so that
  the number of commands one decision step emits can be stated.
 */
module Mavlink {

  /** The absence of a value (Python's `None`). */
  datatype Option<+T> = None | Some(value: T)

  /** Python's `abs` on floats, over the reals. */
  function Abs(x: real): (r: real)
    ensures r >= 0.0
    ensures r == x || r == -x
  {
    if x < 0.0 then -x else x
  }

  /** Python's `max` on two integers. */
  function Max(a: int, b: int): (r: int)
    ensures r >= a && r >= b
    ensures r == a || r == b
  {
    if a < b then b else a
  }

  // Command ids carried by COMMAND_LONG.
  const MAV_CMD_CONDITION_CHANGE_ALT: nat := 113
  const MAV_CMD_CONDITION_YAW: nat := 115

  /** Payload of ATTITUDE (30): time since boot in ms, angles in rad, rates in rad/s. */
  datatype Attitude = Attitude(
    timeBootMs: nat,
    roll: real, pitch: real, yaw: real,
    rollspeed: real, pitchspeed: real, yawspeed: real)

  /** Payload of LOCAL_POSITION_NED (32): time since boot in ms, position in m, velocity in m/s. */
  datatype LocalPositionNed = LocalPositionNed(
    timeBootMs: nat,
    x: real, y: real, z: real,
    vx: real, vy: real, vz: real)

  /** A received message; its constructor plays the role of `get_type()`. */
  datatype Message =
    | HeartbeatMsg
    | AttitudeMsg(attitude: Attitude)
    | LocalPositionNedMsg(position: LocalPositionNed)
    | OtherMsg(msgId: nat)

  /** The arguments of one `command_long_send` call (COMMAND_LONG). */
  datatype CommandLong = CommandLong(
    targetSystem: nat,
    targetComponent: nat,
    command: nat,
    confirmation: nat,
    param1: real, param2: real, param3: real, param4: real,
    param5: real, param6: real, param7: real)

  /** The logger handed to every component; only its presence matters here. */
  class Logger {
    constructor ()
    {
    }
  }

  /** The MAVLink connection. `sent` is every COMMAND_LONG sent over it, oldest first. */
  class Connection {
    ghost var sent: seq<CommandLong>

    constructor ()
      ensures sent == []
    {
      sent := [];
    }

    /** `mav.command_long_send`: one more command on the link. */
    method CommandLongSend(c: CommandLong)
      modifies this
      ensures sent == old(sent) + [c]
    {
      sent := sent + [c];
    }
  }
}
