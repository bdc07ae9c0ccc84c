# Raspberry Pi fan controller: the control step, modelled in Dafny

The controller reads the CPU temperature once a second, smooths it, maps it to
a target fan speed in one of three bands (off, closed loop, full speed), and in
the closed-loop band runs a PID step that turns target and measured RPM into a
PWM duty cycle. A critical-temperature override maxes out the fan, and every
tick reports a telemetry record.

This project models that per-tick control step as pure functions over `real`:

- `Temperature` (`temperature.dfy`): `Smooth`, the exponential moving average
  `alpha * cur + (1 - alpha) * last`, with the default weight 0.1 the loop uses.
- `PidController` (`pid_controller.dfy`): the module globals `integral`,
  `last_error` and `last_time` become a `PidState` record. `Step` is one call
  of `adjust_fan_speed`. It takes the memory, the measured RPM, an optional
  target, the previous duty and two clock readings, and returns the new memory
  and duty. `Steps` chains calls.
- `SpeedMapper` (`speed_mapper.dfy`): the three-band policy of the loop.
  `SelectRegime` picks the band, `LinearTarget` maps temperature to RPM, and
  `TargetRpm` gives the loop's `target_rpm` value.
- `FanController` (`fan_controller.dfy`): `Tick` is one pass of the
  `while True` loop. It reads the pulse counter, smooths the reading, decides,
  runs the override and builds telemetry. It returns the next `LoopState`, the
  ordered actuator commands (`SetFrequency`, `SetDutyCycle`), the telemetry
  record, the target and whether the override fired. `AddEdges` models the
  interrupt callback incrementing the counter, and `Run` chains ticks.
- `Common` (`common.dfy`): `Option`, a `Result` carrying the one exception a
  tick can raise, and real `Min`/`Max`/`Dist`.

Inputs that stand in for the outside world:

- the raw temperature, instead of the sysfs read;
- the clock readings of the PID step, instead of `time.time()`;
- the telemetry timestamp, instead of `datetime.utcnow()`;
- the pulse count, built up by `AddEdges`, instead of the interrupt.

The configuration constants are a `Config` record: PWM frequency,
`MAX_DUTY_CYCLE` as a `nat`, `CRITICAL_TEMP` and the gains. All commands address
the one fan pin (GPIO 18), so the pin is not represented.

Behaviour of the code that the model keeps on purpose:

- **The critical override only sends a command.** It appends
  `SetDutyCycle(MAX)` to the command list. It does not change the duty cycle
  that is stored, reported in telemetry and fed back into the next PID call.
  Line 73 of fan_controller.py maxes out the actuator, but `current_duty_cycle`
  keeps the value lines 52, 57 or 65 gave it, and that value is what line 78
  logs (`CriticalOverrideOnlyActuates`, `SpikeWhileCoolRecordsZeroDuty`).
- **A zero elapsed time raises.** The derivative divides by `delta_time`
  without a guard. On the first call `last_time` is read from the clock just
  before `current_time`, so the two readings can coincide. Python then raises
  `ZeroDivisionError`, which ends the loop. `Step` and `Tick` return
  `Failure(ZeroDivisionError)` exactly in that case, since the code has no
  guard.
- **A negative elapsed time is accepted.** It goes into the integral and
  derivative as is.
- **The no-target path of the PID is never taken by the loop.** The loop calls
  the PID only in the closed-loop band, always with a number. `Step` still
  models the `None` early return.
- **Truncation.** `int(current_duty_cycle)` truncates toward zero (`Truncate`).

## Model

| member | source | states |
|---|---|---|
| Temperature.Smooth | temperature.py:15-16 | each reading moves the history by the fraction alpha of the gap between them; for a weight in [0,1] the smoothed value lies between the two readings; equal readings are a fixed point; weight 1 gives the new reading, weight 0 the old |
| Temperature.SmoothMonotone | temperature.py:16 | for a non-negative weight, a larger new reading never gives a smaller smoothed value |
| Temperature.SmoothStaysInBand | temperature.py:16 | if both readings lie in a band, the smoothed value does too |
| PidController.AntiWindup | pid_controller.py:37-41 | the clamped integral is the point of [0, MAX_DUTY_CYCLE] nearest the raw accumulator |
| PidController.ClampDuty | pid_controller.py:49 | a value already in [0, MAX_DUTY_CYCLE] passes unchanged; below 0 gives 0; above the maximum gives the maximum |
| PidController.AntiWindupIsClampDuty | pid_controller.py:37-49 | the if-chain integral clamp and the max/min output clamp compute the same function |
| PidController.Step | pid_controller.py:19-55 | without a target: full duty, memory unchanged; with one: fails exactly when the elapsed time is 0; otherwise duty and integral lie in [0, MAX_DUTY_CYCLE], the stored integral is the anti-windup clamp of `integral + Ki·error·delta_time`, the duty is `last + P + I + D` when in range and the nearer bound otherwise, and the new error and timestamp are stored |
| PidController.FirstCallWithoutElapsedTimeFails | pid_controller.py:25-44 | on the first call, if both clock readings coincide, the step raises the division error |
| PidController.Steps | pid_controller.py:15-23 | consecutive calls sharing the module's memory, stopping at the first that raises: a sequence made only of calls without a target returns the memory unchanged and never raises; if the final call had a target, the memory ends with its timestamp |
| PidController.StepsEndWithLastTargetedTime | pid_controller.py:22-23 | after any sequence of calls the memory holds the timestamp of the last call that had a target, since later calls without one never touch `last_time` |
| PidController.StepsKeepIntegralBounded | pid_controller.py:15-41 | starting from a bounded integral, any sequence of calls keeps it in [0, MAX_DUTY_CYCLE] |
| SpeedMapper.LinearTarget | fan_controller.py:62 | the mapped target lies in [1500, 5000], is 1500 at or below 45 °C, is `1500 + (t - 45)·3500/24` for t in [45, 69] (neither clamp binds there) and 5000 from 69 °C on |
| SpeedMapper.LinearTargetMonotone | fan_controller.py:62 | the linear map is non-decreasing in temperature |
| SpeedMapper.SelectRegime | fan_controller.py:50-62 | off exactly below 45; full speed exactly from 70; otherwise closed loop towards the linear target in [1500, 5000] |
| SpeedMapper.TargetRpm | fan_controller.py:50-62 | the target is 0 below 45, 5000 from 70 (and from 69), 1500 at 45, and within [1500, 5000] in between |
| SpeedMapper.TargetRpmMonotone | fan_controller.py:50-62 | across all three bands the target is non-decreasing in the smoothed temperature |
| SpeedMapper.TargetAt57 | fan_controller.py:62 | at 57 °C the target is 3250 |
| FanController.Initial | fan_controller.py:37-38 | the first state holds the first reading as history, duty 70, a PID memory with integral 0, last error 0 and no timestamp (pid_controller.py lines 15-17), and an empty counter |
| FanController.AddEdges | fan_controller.py:29-31 | n callbacks raise the pulse counter by exactly n and change nothing else |
| FanController.PulsesToRpm | fan_controller.py:43 | RPM is 30 times the pulse count, which is pulses per two-pulse revolution over a one-second window |
| FanController.Truncate | fan_controller.py:69 | the integer written to the actuator is the duty truncated toward zero |
| FanController.OverrideCommands | fan_controller.py:72-73 | the override contributes exactly one command, a full-duty `SetDutyCycle(MAX)`, when it fires and none otherwise |
| FanController.Decide | fan_controller.py:50-69 | the branch fails exactly in the closed-loop band with zero elapsed time; otherwise its target is `TargetRpm` and its duty lies in [0, MAX_DUTY_CYCLE] |
| FanController.Tick | fan_controller.py:42-78 | rpm is 30 times the pulse count and the counter is reset; the smoothed value becomes the history; the duty lies in [0, MAX_DUTY_CYCLE]; telemetry records the raw temperature and the stored duty; in each band the target, duty, PID memory and exact command list are as the loop sets them; the override fires on the raw temperature and adds a final `SetDutyCycle(MAX)` |
| FanController.Run | fan_controller.py:40-78 | the loop over a finite prefix of its life, stopping at the first tick that raises; after at least one completed tick the counter is reset and the duty lies in [0, MAX_DUTY_CYCLE] (the integral and temperature invariants are the two `RunKeeps` lemmas) |
| FanController.EdgesMeasuredOnce | fan_controller.py:29-44 | exactly n edges after a reset give 30·n RPM and leave the counter at 0 |
| FanController.CriticalOverrideOnlyActuates | fan_controller.py:71-78 | the critical threshold changes only the command list, by one trailing full-duty command; next state, telemetry and target do not depend on it |
| FanController.SpikeWhileCoolRecordsZeroDuty | fan_controller.py:50-78 | a raw 85 °C spike over a 30 °C history stays in the off band: commands are off then full, while state and telemetry record duty 0 |
| FanController.RunKeepsDutyAndIntegralBounded | fan_controller.py:40-78 | along any run of ticks the PID integral stays in [0, MAX_DUTY_CYCLE], and after the first tick so does the duty |
| FanController.RunKeepsTemperatureInBand | fan_controller.py:46-48 | if the first and every raw reading lie in a band, the smoothed history never leaves it |

## Left out

- Reading the CPU temperature from sysfs, including the `0` fallback when the file is missing (temperature.py:5-12): this is file I/O. The raw temperature is a tick input, so the fallback is just one possible input.
- The pigpio connection, the callback registration and the cleanup in the `finally` block (fan_controller.py:22-34, 86-91): this is hardware plumbing. The actuator calls a tick makes appear as its command list.
- The race between the interrupt incrementing `pulse_count` and the loop's read-then-reset (fan_controller.py:29-31, 43-44): this is concurrency. Pulses are added by `AddEdges` only between ticks.
- `time.sleep(1)`, `time.time()` and `datetime.utcnow()`: these become explicit inputs.
- Configuration loading with `configparser`: the constants are a `Config` parameter, and `MAX_DUTY_CYCLE` is a `nat`.
- The telemetry writer (influxdb_writer.py): it is a network client. `Telemetry` holds the arguments the loop passes to `write_to_influxdb`; the writer's own `int()` truncation of temperature, RPM and duty (influxdb_writer.py:34-36) and its swallowing of write errors are not modelled.
- The console status line and the critical-temperature message (fan_controller.py:74, 81): this is output formatting. The message is the `critical` flag of `TickOutput`.
- IEEE floating-point rounding: all arithmetic is over exact reals.
- What happens after a tick raises: the program exits through its cleanup block. `Tick` and `Run` stop with `Failure`.
