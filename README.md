# MAVLink ground-station loop, modelled in Dafny

This project models the three sequential decision components of a ground-station
control loop. The loop talks to a vehicle over MAVLink, using messages of the
common message set: HEARTBEAT (0), ATTITUDE (30), LOCAL_POSITION_NED (32), and
COMMAND_LONG carrying MAV_CMD_CONDITION_CHANGE_ALT (113) or MAV_CMD_CONDITION_YAW (115).

- `mavlink.dfy` (module `Mavlink`) holds the messages as datatypes, the COMMAND_LONG
  record, `Option`, `Abs` and `Max`. The connection is a class whose ghost list
  `sent` records every `command_long_send`. The logger is an empty class, since
  only its presence matters.
- `heartbeat.dfy` models `HeartbeatReceiver`. A class keeps `missedHeartbeats` and
  `isConnected` and updates them in `Run`. `Run` is proved equal to the pure
  transition `Step`. Lemmas over `RunAll` (a fold of `Step`) describe any
  sequence of receive outcomes: what the counter is, when the receiver connects
  and disconnects, and that it never reports connected at five or more misses.
- `telemetry.dfy` models `TelemetryData` and `Telemetry`. `Telemetry.Run` is the
  two-slot while-loop. It is proved against `LastAttitude`, `LastPosition` and
  `Fuse`. It returns at the first receive after which both slots are filled, and
  stamps the snapshot with the later of the two boot times. If the receives run
  out first, it fails and drops what it held.
- `command.dfy` models `Position`, the constants at `modules/command/command.py:28-34`,
  and `Command`. The pure decision `Decide` checks altitude first; the yaw check
  runs only when the altitude check does not fire. The two normalisation
  while-loops are the method `NormalizeYaw`, proved against the functions
  `WrapDown`, `WrapUp` and `Normalize`. `Command.Run` updates the velocity
  accumulator, sends at most one command on the connection, and returns the
  decision as a `Status` (`ChangeAltitude(deltaZ)` or `ChangeYaw(deltaYawDeg)`).

Abstractions:
- Each `recv_match` outcome is an input. For the heartbeat it is a `Receipt`:
  a returned message or nothing, or an exception.
- For telemetry, the outcomes are the sequence `receives`, one entry per receive
  made before the one-second budget (`time.time()`) runs out, with `None` for a
  receive that returned nothing.
- `math.atan2` is a function-typed parameter `atan2`: its trigonometry is not
  modelled.
- `math.degrees` is the exact `r * 180 / PI`, and `PI` is the real written
  3.141592653589793, the decimal literal of `math.pi`.
- Floats are reals.

Two consequences of the code are worth stating:
- `Normalize` gives the closed range [-PI, PI]. The two loops at
  `modules/command/command.py:165-168` leave a raw error of -PI at -PI, since
  neither loop condition holds there.
- A new receiver is disconnected with no miss counted
  (`modules/heartbeat/heartbeat_receiver.py:63-64`). So "disconnected exactly
  when five or more misses" is false at the start. Only "connected implies
  fewer than five misses" holds in every reachable state; see
  `Heartbeat.ReachableConsistent`.

## Model

| member | source | states |
|---|---|---|
| `Mavlink.Abs` | modules/command/command.py:130 | `abs` on reals: non-negative and equal to x or -x |
| `Mavlink.Max` | modules/telemetry/telemetry.py:158 | `max` of two boot times: at least both, and equal to one of them |
| `Mavlink.Connection.CommandLongSend` | modules/command/command.py:132-144 | sending a command appends exactly that command to the connection's sent list |
| `Heartbeat.Step` | modules/heartbeat/heartbeat_receiver.py:75-105 | a heartbeat gives missed 0 and connected; a miss, wrong type or exception adds exactly one miss, keeps the flag below 5 misses and clears it at 5 or more; the result never claims connected at 5 or more misses |
| `Heartbeat.RunAllCharacterised` | modules/heartbeat/heartbeat_receiver.py:83-105 | over any outcome sequence from any state: after the last heartbeat, missed is the number of later misses and connected iff that is below 5; with no heartbeat, the misses add to the start count and the start flag survives only below 5 |
| `Heartbeat.ConsecutiveMisses` | modules/heartbeat/heartbeat_receiver.py:88-105 | n misses add exactly n to the counter; after at least one, connected iff it was connected and the total stays below 5 |
| `Heartbeat.DisconnectedAfterThreshold` | modules/heartbeat/heartbeat_receiver.py:96-105 | five or more consecutive misses from any state leave the receiver disconnected with missed >= 5 |
| `Heartbeat.StaysDisconnected` | modules/heartbeat/heartbeat_receiver.py:88-105 | a disconnected receiver stays disconnected on any run of misses |
| `Heartbeat.HeartbeatReconnects` | modules/heartbeat/heartbeat_receiver.py:83-86 | one heartbeat after any history gives missed 0 and connected |
| `Heartbeat.ReachableConsistent` | modules/heartbeat/heartbeat_receiver.py:63-105 | every state reached from a new receiver satisfies connected implies missed < 5 |
| `Heartbeat.HeartbeatReceiver.constructor` | modules/heartbeat/heartbeat_receiver.py:53-64 | a new receiver has missed 0 and is disconnected |
| `Heartbeat.HeartbeatReceiver.Create` | modules/heartbeat/heartbeat_receiver.py:45-51 | fails with no receiver exactly when the connection or the logger is missing; otherwise a fresh receiver in the initial state |
| `Heartbeat.HeartbeatReceiver.Run` | modules/heartbeat/heartbeat_receiver.py:66-109 | the new fields are `Step` of the old fields and the outcome; the invariant is kept; always success; status "connected" iff the flag is set |
| `Telemetry.LastAttitude` | modules/telemetry/telemetry.py:145-148 | the attitude slot after a batch: empty iff no ATTITUDE arrived, else the payload of an ATTITUDE with no later ATTITUDE |
| `Telemetry.LastPosition` | modules/telemetry/telemetry.py:150-153 | the position slot after a batch: empty iff no LOCAL_POSITION_NED arrived, else the payload of the last one |
| `Telemetry.Fuse` | modules/telemetry/telemetry.py:156-177 | the snapshot's time_since_boot is present, at least both message times, and equal to one of them |
| `Telemetry.LaterOverwrites` | modules/telemetry/telemetry.py:142-153 | a newer message of a kind replaces the slot of that kind; a `None` receive or another kind leaves it alone |
| `Telemetry.Advance` | modules/telemetry/telemetry.py:142-153 | one more receive replaces the slot of its own kind with its payload and leaves the other slot as it was |
| `Telemetry.HasBothMonotone` | modules/telemetry/telemetry.py:156-180 | once a prefix of the receives holds both kinds, every longer prefix does |
| `Telemetry.LastAttitudeAppend` | modules/telemetry/telemetry.py:145-147 | a later batch with no ATTITUDE leaves the attitude of the earlier batch as the latest |
| `Telemetry.PartialReadingDropped` | modules/telemetry/telemetry.py:128-188 | an attitude-only call followed by a position-only call fails both times, although the two batches together hold both kinds |
| `Telemetry.Telemetry.constructor` | modules/telemetry/telemetry.py:106-115 | keeps the connection and the logger |
| `Telemetry.Telemetry.Create` | modules/telemetry/telemetry.py:98-104 | fails with no reader exactly when the connection or the logger is missing |
| `Telemetry.Telemetry.Run` | modules/telemetry/telemetry.py:117-188 | succeeds iff the receives hold both an ATTITUDE and a LOCAL_POSITION_NED; it then stops at the first receive where both are held and returns the fusion of the latest of each; otherwise it uses every receive and returns no data |
| `Command.Degrees` | modules/command/command.py:171 | the sign is kept, and an angle in [-PI, PI] maps into [-180, 180] |
| `Command.WrapDown` | modules/command/command.py:165-166 | the first loop ends at or below PI; it leaves an error at or below PI alone and does not overshoot below -PI |
| `Command.WrapUp` | modules/command/command.py:167-168 | the second loop ends at or above -PI; it leaves an error at or above -PI alone and does not overshoot above PI |
| `Command.Normalize` | modules/command/command.py:164-168 | the normalised error lies in the closed range [-PI, PI]; an error already there is unchanged |
| `Command.WrapDownWholeTurns` | modules/command/command.py:165-166 | the first loop changes the error by whole turns only |
| `Command.WrapUpWholeTurns` | modules/command/command.py:167-168 | the second loop changes the error by whole turns only |
| `Command.NormalizeWholeTurns` | modules/command/command.py:164-168 | the normalised error differs from the raw error by an integer multiple of 2 PI |
| `Command.NormalizeYaw` | modules/command/command.py:164-168 | the two while-loops compute `Normalize` of the raw error |
| `Command.AltitudeError` | modules/command/command.py:128-129 | present iff z is present, and then z plus the error is the target altitude |
| `Command.YawError` | modules/command/command.py:149-171 | present iff x, y and yaw are present, and then within [-180, 180] degrees |
| `Command.Decide` | modules/command/command.py:106-195 | no snapshot gives no decision; an altitude error above 0.5 m always gives that altitude change; otherwise a heading error above 5 degrees gives that yaw change; a decision is taken only when one of the checks fires |
| `Command.Direction` | modules/command/command.py:174-175 | the turn direction is 1 (counter-clockwise, per the source's comment) for a non-negative heading error and -1 otherwise; magnitude times direction gives back the signed error |
| `Command.CommandFor` | modules/command/command.py:132-190 | every command goes to system 1, component 0, without confirmation; an altitude change is command 113 with Z_SPEED as param1, the target altitude as param7 and zeros elsewhere; a yaw change is command 115 with the direction (1 exactly when the error is non-negative, else -1) as param3 and a non-negative angle as param1 whose product with param3 is the signed error, so param1 is the error's magnitude, TURNING_SPEED as param2, 1 (relative) as param4 and zeros elsewhere |
| `Command.Sent` | modules/command/command.py:132-192 | a call sends no command or exactly one, and one exactly when it decided to act |
| `Command.AltitudeCommandSent` | modules/command/command.py:128-146 | an altitude decision needs z present and abs(target.z - z) > 0.5; it sends command 113 with rate Z_SPEED and param7 = target.z, all else 0 |
| `Command.YawCommandSent` | modules/command/command.py:149-192 | a yaw decision needs the altitude within tolerance and x, y, yaw present; it sends command 115 with magnitude in (5, 180], speed TURNING_SPEED, relative flag 1, direction ±1, and +1 iff the normalised error is not negative |
| `Command.AltitudeBlocksYaw` | modules/command/command.py:128-149 | with both errors above tolerance, exactly one command goes out, and it is the altitude command |
| `Command.HeightToleranceBoundary` | modules/command/command.py:128-146 | an altitude error of exactly 0.5 m gives no altitude command; 0.51 m gives one |
| `Command.YawWrapsAround` | modules/command/command.py:162-192 | a raw heading error of 200 degrees becomes a yaw change of -160 degrees, magnitude 160, direction -1 |
| `Command.ClimbScenario` | modules/command/command.py:128-146 | target (0,0,10) seen from (0,0,8) gives an altitude change of 2.0 to altitude 10 |
| `Command.OnTargetScenario` | modules/command/command.py:128-195 | target (10,0,5) seen from (0,0,5) heading 0, where atan2(0,10) = 0, gives no command |
| `Command.DecisionIgnoresVelocity` | modules/command/command.py:110-127 | changing the velocity fields never changes the decision |
| `Command.Command.constructor` | modules/command/command.py:74-91 | the velocity totals and the sample count start at 0 |
| `Command.Command.Create` | modules/command/command.py:63-72 | fails with no decider exactly when the connection, the target or the logger is missing |
| `Command.Command.AccumulateVelocity` | modules/command/command.py:110-119 | with all three velocity components, each total grows by its component and the count by exactly 1; otherwise nothing changes |
| `Command.Command.Run` | modules/command/command.py:93-195 | the status is `Decide` of the target and the snapshot; success iff a command was sent; the connection's sent list grows by exactly the 0 or 1 commands decided; the accumulator is updated as above whatever the decision, and the sample count never decreases |

## Left out

- The four `*_worker.py` files are left out. They are process harness: logger setup, pause and exit polling through the controller, and queue get and put between processes. Their point is concurrency, and the queue and controller primitives are not part of this model. This includes the sentinel stop and the status filter of the command worker.
- `modules/heartbeat/heartbeat_sender.py` is left out: it wraps the library's `heartbeat_send` with fixed constants and has no decision logic. The drift-corrected send schedule of its worker depends on wall-clock time and sleep.
- Wall-clock time is left out. The budget arithmetic in `Telemetry.run` (`time.time()`, `remaining_timeout`) is replaced by the finite `receives` sequence. `HEARTBEAT_PERIOD` only bounds the blocking receive in `HeartbeatReceiver.run`, so it does not appear. `TELEMETRY_TIMEOUT` is the one-second budget of a `Telemetry.run` call, and `receives` stands in for it.
- `Telemetry.Telemetry.Run`: a receive that raises is not modelled. The `recv_match` call at `modules/telemetry/telemetry.py:136-140` is not inside a `try`, so such an exception ends the call without a result, and `modules/telemetry/telemetry_worker.py` does not catch it either. Each entry of `receives` is a receive that returned, so the model's `Run` always returns.
- `Command.Command.Run`: a `command_long_send` that raises (`modules/command/command.py:132`, `:178`) is not modelled. In the source the exception leaves `run` after the velocity sums were updated and before any status is returned, and the command worker's `except Exception` swallows it. The modelled send always succeeds.
- `Telemetry.Telemetry.Run` accepts an empty `receives`. The source always makes at least one receive, because the budget starts positive.
- IEEE floating point is left out: rounding, NaN and infinities. All arithmetic is on exact reals, so `Normalize` is exact.
- The trigonometry of `math.atan2` is left out. It is a parameter, with no assumption about its range.
- Logging is left out. This covers the average velocity, which the source computes only to log it, and the f-string text of the status strings, which are the datatype `Status`.
- `TelemetryData.__str__` and pymavlink wire encoding are left out.
- The private-key check in each `__init__` is not modelled. It only forces callers through `create`; here `Create` is a static method next to a plain constructor.
- The connection's own state is left out, except for the record of sent commands. The model does not say whether one link may be shared safely between workers.
