# Line follower control core in Dafny

A model of the control core of an EV3 line-following robot (tobiasv1337/EV3-PID-Linefollower). The robot reads an 8-element light sensor array and estimates where the line lies under it. A PID regulator turns that estimate into a steering correction. The correction becomes two wheel speeds, which are scaled down together when either one exceeds the motor limit. When the position is unknown (`None`), the robot pivots toward the side where it last saw the line.

Modules, one per source file, plus `Wrappers`:

- `Wrappers` (`wrappers.dfy`): `Option` for Python's `None`, and `Outcome` for an operation that may raise.
- `Pid` (`pid_controller.dfy`): the regulator. `Step` is the specification of one `compute` call on an explicit configuration (`Config`: gains, setpoint, output limits) and history (`History`: accumulator, previous error, last output). `Outputs` and `Final` run `Step` over a sequence of measurements. The class `PidController` keeps the same state in fields. Its methods are proved against `Step` and state which fields they leave alone.
- `LightArray` (`light_array_sensor.dfy`): the line position is the weighted average `Σ value·(i+1) / Σ value` over the unsigned bytes of one reading, or 0 when the sum is 0. The module proves the position's bounds, its value for single-contact and uniform readings, and its mirror law under reversal. The class `LightArraySensor` holds the acquisition mode and the commands written to the device, and models the argument checks of `set_mode` and `set_frequency`.
- `Follower` (`line_follower.dfy`): the speed scaler `Scale` and the class `LineFollower`. The class has the scaling method, the run/stop toggle, one control-loop iteration (`Tick`) and a finite run of iterations (`FollowLine`). A tick returns the motor command it would issue: `Stop`, `Hold` (no motor call this tick) or `Drive(left, right)`. The pure functions `TickStep` (one iteration on an explicit `FollowerState`) and `Run` (a finite run of iterations) specify the loop, and `Tick` and `FollowLine` are proved equal to them.

All arithmetic is exact (`real`). The model follows the code as written:

- The position weights the raw sample values. The code does not invert them as `max_value - sample`, and it does not reverse the order for a flipped mount.
- The zero-sum reading gives position 0, not "unknown".
- The recovery pivot compares the last position with the hard-coded 4.5 (line_follower.py:164), not with the PID setpoint.
- When the robot is stopped, the last position is overwritten with that tick's position, even `None`.
- `reset` also zeroes the stored last output.
- `get_line_position` (light_array_sensor.py:64-74) never returns `None`: a zero sum gives 0 and a failed read raises. So in the code the `line_position is None` test (line_follower.py:162) is never true, and the recovery pivot (line_follower.py:163-171) cannot run; a zero-sum reading is steered as position 0. The model reaches the pivot only because the tick's position is an independent input (`TickInput.linePosition`).

With raw weighting, the reading `[10,10,10,10,90,90,90,90]` sits at 6.1. With the follower's gains, that tick gives `left < right` (`SkewedReadingSteersTowardLowIndices`), the opposite of the right-ward turn that an inverting estimator would give.

## Model

| member | source | states |
|---|---|---|
| `Pid.Clamp` | pid_controller.py:30-34 | the result never exceeds a present upper bound; it is at least a present lower bound when the bounds are ordered or the upper one is absent; it is the input itself when the input lies within the bounds, the lower bound below it, the upper bound above it, and the upper bound whenever the bounds are crossed |
| `Pid.Step` | pid_controller.py:17-37 | one `compute` call sets the previous error to `setpoint - value`, adds exactly that error to the accumulator, returns `kp*e + ki*(new accumulator) + kd*(e - old previous error)` when there are no limits, and returns a value that is at most a present upper bound, and at least a present lower bound when the bounds are ordered or the upper one is absent |
| `Pid.Outputs` | pid_controller.py:17-37 | a run of `compute` calls returns one output per measurement, each at most a present upper bound, and at least a present lower bound when the bounds are ordered or the upper one is absent |
| `Pid.IntegralIsErrorSum` | pid_controller.py:22 | after any run the accumulator is its start value plus the sum of all errors, with no clamp or decay |
| `Pid.PreviousErrorIsLastError` | pid_controller.py:18-26 | after a non-empty run the remembered error is `setpoint - last measurement` |
| `Pid.UnitProportionalTracksError` | pid_controller.py:17-28 | with `kp = 1`, `ki = kd = 0` and no limits, every call returns exactly `setpoint - value`, whatever the history |
| `Pid.LastOutputIsNotFedBack` | pid_controller.py:17-37 | the stored last output has no influence on later outputs or on the history that follows |
| `Pid.PidController.constructor` | pid_controller.py:6-15 | the configuration is the arguments (setpoint 0 and no limits by default), and the history is all zeros |
| `Pid.PidController.Compute` | pid_controller.py:17-37 | the new history is `Step` of the old one, the returned value is stored as the last output, the listed formula and bounds hold, and gains, setpoint and limits are unchanged |
| `Pid.PidController.Reset` | pid_controller.py:39-42 | accumulator, previous error and last output become 0, and gains, setpoint and limits are unchanged |
| `Pid.PidController.SetSetpoint` | pid_controller.py:44-45 | only the setpoint changes |
| `Pid.PidController.SetOutputLimits` | pid_controller.py:47-48 | only the output limits change, to the given pair |
| `Pid.ResetMatchesFreshController` | pid_controller.py:13-15 | after `reset`, two `compute` calls return the same values as on a freshly constructed controller with the same configuration, namely `Outputs` from the zero history |
| `LightArray.WeightBounds` | light_array_sensor.py:70-71 | the weighted sum lies between the total and the element count times the total |
| `LightArray.LinePosition` | light_array_sensor.py:64-74 | a reading that sums to 0 gives position 0; a reading with a positive sum gives a position in `[1, N]`, which is `[1, 8]` for the array's 8 bytes |
| `LightArray.SingleContact` | light_array_sensor.py:70-74 | a reading whose only non-zero element is at 0-based index `i` gives position `i + 1` |
| `LightArray.UniformReading` | light_array_sensor.py:70-74 | a reading whose elements are all equal and non-zero gives `(N + 1) / 2`, which is 4.5 for 8 elements |
| `LightArray.ReverseSums` | light_array_sensor.py:70-71 | reversal keeps the total and turns the weighted sum `W` into `(N + 1)·total - W` |
| `LightArray.MirroredReading` | light_array_sensor.py:70-74 | for a positive sum, the reversed reading's position is `N + 1 - p` (`9 - p` for 8 elements) |
| `LightArray.LightArraySensor.constructor` | light_array_sensor.py:10-19 | the mode starts as "CAL" and no command has been written |
| `LightArray.LightArraySensor.SetMode` | light_array_sensor.py:52-55 | it succeeds exactly for "CAL" and "RAW" and then sets the mode; any other argument fails and leaves the mode unchanged |
| `LightArray.LightArraySensor.SetFrequency` | light_array_sensor.py:40-43 | it succeeds exactly for "50HZ", "60HZ" and "UNIVERSAL" and then writes that command; any other argument fails before anything is written |
| `Follower.Scale` | line_follower.py:32-47 | both results lie in `[-max, max]`, whatever the inputs |
| `Follower.ScalePassesThrough` | line_follower.py:33-47 | when the larger magnitude is within the limit, both speeds pass through unchanged and the factor is 1 |
| `Follower.ScaleKeepsRatio` | line_follower.py:33-39 | when the larger magnitude exceeds the limit, the factor is `max / peak` and lies in (0, 1), both speeds are multiplied by it (so their ratio is kept), and the larger one lands exactly on ±max |
| `Follower.ScaleKeepsDirections` | line_follower.py:32-47 | each wheel keeps its direction, and the difference between the wheels keeps its sign |
| `Follower.ScaleExamples` | line_follower.py:33-47 | (120, 60) becomes (100, 50) with factor 100/120, and (40, -40) is left unchanged with factor 1 |
| `Follower.LineFollower.constructor` | line_follower.py:11-31 | base speed 10, limit 100, scaling factor 1, not running, and a fresh regulator with gains (5, 0, 5), setpoint 4.5 and limits ±100 |
| `Follower.LineFollower.ScaleMotorSpeeds` | line_follower.py:32-47 | the returned speeds and the recorded scaling factor are those of `Scale` |
| `Follower.LineFollower.ToggleRunningState` | line_follower.py:114-116 | a press flips `running`, and no press leaves it unchanged |
| `Follower.LineFollower.Tick` | line_follower.py:148-187 | the command and the new state (running flag, last position, scaling factor, regulator history) are those of `TickStep` on the old state; when stopped, it stops both motors and records this tick's position, even `None`; when running with invalid data, it issues nothing and changes nothing; when running without a position, it pivots left (base, -base) if the last position is below 4.5, pivots right (-base, base) otherwise, or issues nothing if there is no last position, keeping the last position; when running with a position, it advances the regulator by `Step`, commands the scaled `base ± correction`, whose left-minus-right has the sign of the correction, and records the position; every command is within the limit, and the regulator's configuration never changes |
| `Follower.LineFollower.FollowLine` | line_follower.py:145-187 | starting with no last position, the commands and the final state (running flag, last position, scaling factor, regulator history) are those of `Run` over the ticks; every command is within the motor limit, a tick with invalid data never drives the motors, `running` ends flipped exactly when the run button was pressed an odd number of times, and the regulator's configuration is unchanged |
| `Follower.TickStep` | line_follower.py:157-187 | one loop iteration on an explicit state: when stopped it commands `Stop`; invalid data never drives the motors; the running flag is never changed; the regulator history changes only on a running tick with data and a position; every command is within the limit when the base speed is |
| `Follower.Run` | line_follower.py:145-187 | a run of ticks, each handling the run button (line_follower.py:114-116) and then `TickStep`, gives one command per tick, each within the limit when the base speed is, and none of them drives the motors on invalid data |
| `Follower.RunningFollowsPresses` | line_follower.py:114-116 | after any run, `running` is the start value flipped exactly when the run button was pressed an odd number of times |
| `Follower.IdleRunStops` | line_follower.py:157-185 | a stopped follower whose button is never pressed stops the motors on every tick, stays stopped and leaves the regulator history untouched |
| `Follower.SkewedReadingSteersTowardLowIndices` | line_follower.py:174-181 | the raw reading [10,10,10,10,90,90,90,90] is at 6.1; a fresh follower regulator answers it with -16; and `TickStep` for a running follower with a fresh regulator, on that reading and its computed position, commands (-6, 26) |

## Left out

- Device I/O is not modelled: reading the sensor (`bin_data`), the calibration commands, `sleep`, `wake` and the motors. A reading is an input `seq` of bytes. A motor command is the returned `MotorCommand`.
- `get_line_position` reads the sensor a second time, separately from the `read_data` call of the same tick. The model therefore takes the tick's data and its position as two independent inputs. A failed read inside `get_line_position` would raise rather than return `None`. Only the `None` position that `follow_line` tests for is modelled.
- `LineFollower.constructor`: the sensor is built with `flipped=True`, a keyword the shown sensor class does not accept. The model builds no sensor.
- `debug_visualization` is not modelled: it draws to the screen and reads `sensor.max_value`, which the shown sensor class does not have.
- Also not modelled: sound, the `time.sleep` debounce, the mode-toggle and manual-calibration buttons (the latter calls a `calibrate` the sensor class lacks), the `KeyboardInterrupt` shutdown and the `__main__` scripts.
- `FollowLine`: the source loop never ends. The model runs it over a finite sequence of ticks, each holding the run button, the data and the position. `last_line_position`, a local of `follow_line`, is a field of the class, which `FollowLine` clears at the start.
- Floating-point rounding is not modelled: arithmetic is exact `real`. The rounding guard in `scale_motor_speeds` is kept, and it is provably never active.
- Python integer-versus-float result types are not modelled: the zero-sum position is the `real` 0.
- ev3_motor.py, draw_rectangles.py and full_speed.py are not part of this model.
