/** One pass of the control loop (fan_controller.py) as a pure function.

    A tick measures the RPM from the tachometer pulses counted since the last
    tick, smooths the raw CPU temperature, picks a regime, sets the duty cycle
    (directly in the off and full-speed bands, through the PID step in between),
    applies the critical-temperature override, and reports telemetry. The
    actuator calls become an ordered list of commands; the sensor, the clocks
    and the pulse interrupts become inputs. */
module FanController {
  import opened Common
  import Temperature
  import PidController
  import SpeedMapper

  /** The duty cycle the loop starts from. */
  const InitialDuty: real := 70.0
  /** Tachometer pulses per fan revolution. */
  const PulsesPerRevolution: real := 2.0
  /** Length of the sampling window in seconds. */
  const WindowSeconds: real := 1.0

  /** Constants read from the configuration file at start-up. */
  datatype Config = Config(pwmFreq: int, maxDuty: nat, criticalTemp: int, gains: PidController.Gains)

  /** Everything the loop carries from one tick to the next. `pulseCount` is the
      counter the interrupt callback increments. */
  datatype LoopState = LoopState(lastTemp: real, duty: real, pid: PidController.PidState, pulseCount: nat)

  /** A call on the PWM output of the fan pin. */
  datatype Command = SetFrequency(hz: int) | SetDutyCycle(value: int)

  /** The arguments the loop passes to the time-series writer: timestamp, raw
      temperature, measured RPM and stored duty cycle. */
  datatype Telemetry = Telemetry(timestamp: real, temperature: real, rpm: real, duty: real)

  /** The outside world's contribution to one tick: the raw temperature, the
      PID step's clock readings (see `PidController.Step`) and the wall-clock
      timestamp of the telemetry record. */
  datatype Readings = Readings(rawTemp: real, pidStartTime: real, pidNow: real, timestamp: real)

  /** What a tick produces. `target` is the tick's `target_rpm`, `critical`
      whether the override fired. */
  datatype TickOutput = TickOutput(next: LoopState, commands: seq<Command>, telemetry: Telemetry,
                                   target: real, critical: bool)

  /** The regime part of a tick: duty, PID memory, commands and target. */
  datatype Decision = Decision(duty: real, pid: PidController.PidState, commands: seq<Command>, target: real)

  /** The state before the first tick: the first temperature reading as the
      smoothing history, the middle-of-the-range starting duty, a fresh PID
      memory and an empty pulse counter. */
  function Initial(firstTemp: real, cfg: Config): (s: LoopState)
    ensures PidController.IntegralBounded(s.pid, cfg.maxDuty)
    ensures s.pid.integral == 0.0 && s.pid.lastError == 0.0
    ensures s.pid.lastTime.None? && s.pulseCount == 0
    ensures s.lastTemp == firstTemp && s.duty == InitialDuty
  {
    LoopState(firstTemp, InitialDuty, PidController.Initial, 0)
  }

  /** `n` rising edges seen by the interrupt callback, one increment each. */
  function AddEdges(s: LoopState, n: nat): (r: LoopState)
    ensures r.pulseCount == s.pulseCount + n
    ensures r.(pulseCount := s.pulseCount) == s
  {
    if n == 0 then s
    else
      var r := AddEdges(s, n - 1);
      r.(pulseCount := r.pulseCount + 1)
  }

  /** RPM from the pulses of one window, `(pulses / 2) * 60`. */
  function PulsesToRpm(pulses: nat): (rpm: real)
    ensures rpm == 30.0 * pulses as real
    ensures rpm == pulses as real / PulsesPerRevolution * (60.0 / WindowSeconds)
  {
    (pulses as real / 2.0) * 60.0
  }

  /** Python's `int()` on a float: truncation towards zero. */
  function Truncate(x: real): (n: int)
    ensures 0.0 <= x ==> n as real <= x < n as real + 1.0
    ensures x < 0.0 ==> n as real - 1.0 < x <= n as real
    ensures Dist(n as real, 0.0) <= Dist(x, 0.0)
  {
    if x >= 0.0 then x.Floor else -((-x).Floor)
  }

  /** The command the critical-temperature override appends, if any. */
  function OverrideCommands(cfg: Config, critical: bool): (r: seq<Command>)
    ensures |r| == (if critical then 1 else 0)
    ensures forall i :: 0 <= i < |r| ==> r[i] == SetDutyCycle(cfg.maxDuty)
  {
    if critical then [SetDutyCycle(cfg.maxDuty)] else []
  }

  /** The three-way branch of the loop. Off and full speed set the duty cycle
      directly and leave the PID memory alone; the middle band runs the PID
      step, sets the PWM frequency and writes the truncated duty. */
  function Decide(cfg: Config, s: LoopState, rpm: real, smoothed: real, rd: Readings): (r: Result<Decision>)
    ensures r.Failure? <==>
              && SpeedMapper.SelectRegime(smoothed).ClosedLoop?
              && PidController.Elapsed(s.pid, rd.pidStartTime, rd.pidNow) == 0.0
    ensures r.Success? ==> r.value.target == SpeedMapper.TargetRpm(smoothed)
    ensures r.Success? ==> 0.0 <= r.value.duty <= cfg.maxDuty as real
  {
    match SpeedMapper.SelectRegime(smoothed)
    case Off =>
      Success(Decision(0.0, s.pid, [SetDutyCycle(0)], 0.0))
    case FullSpeed =>
      Success(Decision(cfg.maxDuty as real, s.pid, [SetDutyCycle(cfg.maxDuty)], SpeedMapper.MaxRpm))
    case ClosedLoop(target) =>
      match PidController.Step(cfg.gains, cfg.maxDuty, s.pid, rpm, Some(target), s.duty,
                               rd.pidStartTime, rd.pidNow)
      case Failure(e) => Failure(e)
      case Success(o) =>
        Success(Decision(o.duty, o.state, [SetFrequency(cfg.pwmFreq), SetDutyCycle(Truncate(o.duty))], target))
  }

  /** One iteration of the `while True` loop. */
  function Tick(cfg: Config, s: LoopState, rd: Readings): (r: Result<TickOutput>)
    // the tachometer window: rpm from the pulses, counter reset
    ensures r.Success? ==> r.value.telemetry.rpm == 30.0 * s.pulseCount as real
    ensures r.Success? ==> r.value.next.pulseCount == 0
    // the smoothed, not the raw, temperature becomes the history
    ensures r.Success? ==>
              r.value.next.lastTemp == Temperature.Smooth(rd.rawTemp, s.lastTemp, Temperature.DefaultAlpha)
    // the tick raises exactly when the PID step divides by a zero elapsed time
    ensures r.Failure? <==>
              && SpeedMapper.OffBelow <= Temperature.Smooth(rd.rawTemp, s.lastTemp, Temperature.DefaultAlpha) < SpeedMapper.FullFrom
              && PidController.Elapsed(s.pid, rd.pidStartTime, rd.pidNow) == 0.0
    ensures r.Success? ==>
              var o := r.value;
              var smoothed := o.next.lastTemp;
              && o.target == SpeedMapper.TargetRpm(smoothed)
              && 0.0 <= o.next.duty <= cfg.maxDuty as real
              // telemetry records the raw temperature and the state's duty cycle
              && o.telemetry == Telemetry(rd.timestamp, rd.rawTemp, o.telemetry.rpm, o.next.duty)
              // the override fires on the raw temperature and only adds a final command
              && (o.critical <==> rd.rawTemp >= cfg.criticalTemp as real)
              && (o.critical ==> |o.commands| >= 2 && o.commands[|o.commands| - 1] == SetDutyCycle(cfg.maxDuty))
              // off band
              && (smoothed < SpeedMapper.OffBelow ==>
                    && o.next.duty == 0.0 && o.target == 0.0 && o.next.pid == s.pid
                    && o.commands == [SetDutyCycle(0)] + OverrideCommands(cfg, o.critical))
              // full-speed band
              && (smoothed >= SpeedMapper.FullFrom ==>
                    && o.next.duty == cfg.maxDuty as real && o.target == SpeedMapper.MaxRpm
                    && o.next.pid == s.pid
                    && o.commands == [SetDutyCycle(cfg.maxDuty)] + OverrideCommands(cfg, o.critical))
              // closed-loop band
              && (SpeedMapper.OffBelow <= smoothed < SpeedMapper.FullFrom ==>
                    && SpeedMapper.MinRpm <= o.target <= SpeedMapper.MaxRpm
                    && PidController.Step(cfg.gains, cfg.maxDuty, s.pid, o.telemetry.rpm, Some(o.target),
                                          s.duty, rd.pidStartTime, rd.pidNow)
                       == Success(PidController.PidOutput(o.next.pid, o.next.duty))
                    && 0 <= Truncate(o.next.duty) <= cfg.maxDuty
                    && o.commands == [SetFrequency(cfg.pwmFreq), SetDutyCycle(Truncate(o.next.duty))]
                                     + OverrideCommands(cfg, o.critical))
  {
    var rpm := PulsesToRpm(s.pulseCount);
    var smoothed := Temperature.Smooth(rd.rawTemp, s.lastTemp, Temperature.DefaultAlpha);
    match Decide(cfg, s, rpm, smoothed, rd)
    case Failure(e) => Failure(e)
    case Success(d) =>
      var critical := rd.rawTemp >= cfg.criticalTemp as real;
      var next := LoopState(smoothed, d.duty, d.pid, 0);
      Success(TickOutput(next, d.commands + OverrideCommands(cfg, critical),
                         Telemetry(rd.timestamp, rd.rawTemp, rpm, d.duty), d.target, critical))
  }

  /** What happens between two ticks and during one: pulses, then readings. */
  datatype TickInput = TickInput(edges: nat, readings: Readings)

  /** The loop over a finite prefix of its life, stopping at the first tick that raises. */
  function Run(cfg: Config, s: LoopState, inputs: seq<TickInput>): (r: Result<LoopState>)
    // after at least one completed tick the counter is reset and the duty is in range
    ensures r.Success? && |inputs| > 0 ==>
              && r.value.pulseCount == 0
              && 0.0 <= r.value.duty <= cfg.maxDuty as real
    decreases |inputs|
  {
    if |inputs| == 0 then Success(s)
    else
      match Tick(cfg, AddEdges(s, inputs[0].edges), inputs[0].readings)
      case Failure(e) => Failure(e)
      case Success(o) => Run(cfg, o.next, inputs[1..])
  }

  /** Exactly `n` rising edges in a window from a reset counter yield `30 * n` RPM,
      and the counter is zero again afterwards. */
  lemma EdgesMeasuredOnce(cfg: Config, s: LoopState, n: nat, rd: Readings)
    requires s.pulseCount == 0
    ensures Tick(cfg, AddEdges(s, n), rd).Success? ==>
              && Tick(cfg, AddEdges(s, n), rd).value.telemetry.rpm == 30.0 * n as real
              && Tick(cfg, AddEdges(s, n), rd).value.next.pulseCount == 0
  {
  }

  /** The critical threshold touches nothing but the command list: two
      configurations that differ only in CRITICAL_TEMP lead to the same next
      state, telemetry and target; where only one fires, its commands are the
      other's plus a trailing full-duty command. */
  lemma CriticalOverrideOnlyActuates(cfg: Config, s: LoopState, rd: Readings, otherCritical: int)
    ensures var a := Tick(cfg, s, rd);
            var b := Tick(cfg.(criticalTemp := otherCritical), s, rd);
            && (a.Success? <==> b.Success?)
            && (a.Success? ==>
                  && a.value.next == b.value.next
                  && a.value.telemetry == b.value.telemetry
                  && a.value.target == b.value.target
                  && (a.value.critical && !b.value.critical ==>
                        a.value.commands == b.value.commands + [SetDutyCycle(cfg.maxDuty)]))
  {
  }

  /** A sudden spike: a raw reading over the critical temperature that the
      smoothing keeps below 45 °C. The fan is first switched off and then
      maxed out, yet the state and the telemetry record a duty cycle of 0. */
  lemma SpikeWhileCoolRecordsZeroDuty(cfg: Config, s: LoopState, rd: Readings)
    requires s.lastTemp == 30.0 && rd.rawTemp == 85.0 && cfg.criticalTemp == 80
    ensures Tick(cfg, s, rd).Success?
    ensures Tick(cfg, s, rd).value.commands == [SetDutyCycle(0), SetDutyCycle(cfg.maxDuty)]
    ensures Tick(cfg, s, rd).value.next.duty == 0.0
    ensures Tick(cfg, s, rd).value.telemetry.duty == 0.0
  {
  }

  /** Every state the loop reaches keeps the PID integral within
      [0, MAX_DUTY_CYCLE], and after at least one tick so is the duty cycle. */
  lemma {:induction false} RunKeepsDutyAndIntegralBounded(cfg: Config, s: LoopState, inputs: seq<TickInput>)
    requires PidController.IntegralBounded(s.pid, cfg.maxDuty)
    ensures Run(cfg, s, inputs).Success? ==>
              && PidController.IntegralBounded(Run(cfg, s, inputs).value.pid, cfg.maxDuty)
              && (|inputs| > 0 ==> 0.0 <= Run(cfg, s, inputs).value.duty <= cfg.maxDuty as real)
    decreases |inputs|
  {
    if |inputs| > 0 {
      var r := Tick(cfg, AddEdges(s, inputs[0].edges), inputs[0].readings);
      if r.Success? {
        RunKeepsDutyAndIntegralBounded(cfg, r.value.next, inputs[1..]);
      }
    }
  }

  /** If the first reading and every raw reading lie in [lo, hi], the smoothed
      history never leaves that band. */
  lemma {:induction false} RunKeepsTemperatureInBand(cfg: Config, s: LoopState, inputs: seq<TickInput>,
                                                     lo: real, hi: real)
    requires lo <= s.lastTemp <= hi
    requires forall i :: 0 <= i < |inputs| ==> lo <= inputs[i].readings.rawTemp <= hi
    ensures Run(cfg, s, inputs).Success? ==> lo <= Run(cfg, s, inputs).value.lastTemp <= hi
    decreases |inputs|
  {
    if |inputs| > 0 {
      var s' := AddEdges(s, inputs[0].edges);
      var r := Tick(cfg, s', inputs[0].readings);
      if r.Success? {
        Temperature.SmoothStaysInBand(inputs[0].readings.rawTemp, s'.lastTemp,
                                      Temperature.DefaultAlpha, lo, hi);
        assert forall i :: 0 <= i < |inputs[1..]| ==> inputs[1..][i] == inputs[i + 1];
        RunKeepsTemperatureInBand(cfg, r.value.next, inputs[1..], lo, hi);
      }
    }
  }
}
