/** One invocation of the PID fan-speed controller (pid_controller.py).

    The module-level globals `integral`, `last_error` and `last_time` become an
    explicit `PidState` that a step takes and returns. The two `time.time()`
    readings become inputs: `startTime` is the reading taken when no previous
    timestamp exists yet, `now` is the reading every step takes. */
module PidController {
  import opened Common

  /** Proportional, integral and derivative gains, fixed at start-up. */
  datatype Gains = Gains(kp: real, ki: real, kd: real)

  /** The controller's memory between invocations. */
  datatype PidState = PidState(integral: real, lastError: real, lastTime: Option<real>)

  /** What one invocation hands back: the updated memory and the new duty cycle. */
  datatype PidOutput = PidOutput(state: PidState, duty: real)

  /** The state at process start: no accumulated integral, no error, no timestamp. */
  const Initial: PidState := PidState(0.0, 0.0, None)

  /** The anti-windup invariant: the integral accumulator lies in [0, maxDuty]. */
  predicate IntegralBounded(s: PidState, maxDuty: nat)
  {
    0.0 <= s.integral <= maxDuty as real
  }

  /** The integral clamp as pid_controller.py:38-41 writes it: an upper test, then a lower one.
      The result is the point of [0, maxDuty] nearest to the raw accumulator. */
  function AntiWindup(integral: real, maxDuty: nat): (r: real)
    ensures NearestInRange(r, integral, 0.0, maxDuty as real)
  {
    if integral > maxDuty as real then maxDuty as real
    else if integral < 0.0 then 0.0
    else integral
  }

  /** The output clamp `max(0, min(MAX_DUTY_CYCLE, x))`: a value already in
      range passes unchanged, anything outside becomes the nearer bound. */
  function ClampDuty(x: real, maxDuty: nat): (r: real)
    ensures 0.0 <= x <= maxDuty as real ==> r == x
    ensures x < 0.0 ==> r == 0.0
    ensures x > maxDuty as real ==> r == maxDuty as real
  {
    Max(0.0, Min(maxDuty as real, x))
  }

  /** The two differently written clamps agree, because MAX_DUTY_CYCLE is not negative. */
  lemma AntiWindupIsClampDuty(x: real, maxDuty: nat)
    ensures AntiWindup(x, maxDuty) == ClampDuty(x, maxDuty)
  {
  }

  /** The timestamp the elapsed time is measured from: the stored one, or the
      reading taken just now when there is none yet. */
  function PreviousTime(s: PidState, startTime: real): real
  {
    match s.lastTime
    case Some(t) => t
    case None => startTime
  }

  /** `delta_time` of a step. */
  function Elapsed(s: PidState, startTime: real, now: real): real
  {
    now - PreviousTime(s, startTime)
  }

  /** The integral after a step towards `target`, clamped against windup. */
  function NextIntegral(g: Gains, maxDuty: nat, s: PidState, error: real, dt: real): real
  {
    AntiWindup(s.integral + g.ki * error * dt, maxDuty)
  }

  /** `last_duty_cycle + P + I + D` before the output clamp. */
  function Unclamped(g: Gains, maxDuty: nat, s: PidState, currentRpm: real, target: real,
                     lastDuty: real, startTime: real, now: real): real
    requires Elapsed(s, startTime, now) != 0.0
  {
    var error := target - currentRpm;
    var dt := Elapsed(s, startTime, now);
    var proportional := g.kp * error;
    var integral := NextIntegral(g, maxDuty, s, error, dt);
    var derivative := g.kd * (error - s.lastError) / dt;
    lastDuty + (proportional + integral + derivative)
  }

  /** One call of adjust_fan_speed. Without a target it asks for full speed and
      leaves the memory untouched; with one it fails exactly when no time has
      elapsed (the derivative divides by it), and otherwise returns a clamped
      duty, a clamped integral, and remembers this error and this time. */
  function Step(g: Gains, maxDuty: nat, s: PidState, currentRpm: real, target: Option<real>,
                lastDuty: real, startTime: real, now: real): (r: Result<PidOutput>)
    ensures target.None? ==> r == Success(PidOutput(s, maxDuty as real))
    ensures r.Failure? <==> target.Some? && Elapsed(s, startTime, now) == 0.0
    ensures r.Success? ==> 0.0 <= r.value.duty <= maxDuty as real
    ensures target.Some? && r.Success? ==>
              && IntegralBounded(r.value.state, maxDuty)
              && r.value.state.integral
                 == AntiWindup(s.integral + g.ki * (target.value - currentRpm) * Elapsed(s, startTime, now), maxDuty)
              && r.value.state.lastError == target.value - currentRpm
              && r.value.state.lastTime == Some(now)
    ensures target.Some? && r.Success? ==>
              var u := Unclamped(g, maxDuty, s, currentRpm, target.value, lastDuty, startTime, now);
              && (0.0 <= u <= maxDuty as real ==> r.value.duty == u)
              && (u < 0.0 ==> r.value.duty == 0.0)
              && (u > maxDuty as real ==> r.value.duty == maxDuty as real)
  {
    match target
    case None => Success(PidOutput(s, maxDuty as real))
    case Some(t) =>
      var error := t - currentRpm;
      var dt := Elapsed(s, startTime, now);
      if dt == 0.0 then
        Failure(ZeroDivisionError)
      else
        var integral := NextIntegral(g, maxDuty, s, error, dt);
        var duty := ClampDuty(Unclamped(g, maxDuty, s, currentRpm, t, lastDuty, startTime, now), maxDuty);
        Success(PidOutput(PidState(integral, error, Some(now)), duty))
  }

  /** On the very first call both clock readings may coincide; the step then
      raises instead of producing a duty. */
  lemma FirstCallWithoutElapsedTimeFails(g: Gains, maxDuty: nat, currentRpm: real, target: real,
                                         lastDuty: real, t: real)
    ensures Step(g, maxDuty, Initial, currentRpm, Some(target), lastDuty, t, t) == Failure(ZeroDivisionError)
  {
  }

  /** The arguments and clock readings of one call. */
  datatype StepInput = StepInput(currentRpm: real, target: Option<real>, lastDuty: real,
                                 startTime: real, now: real)

  /** Consecutive calls sharing the module's memory, stopping at the first that raises. */
  function Steps(g: Gains, maxDuty: nat, s: PidState, inputs: seq<StepInput>): (r: Result<PidState>)
    // calls without a target never touch the memory and never raise
    ensures (forall i :: 0 <= i < |inputs| ==> inputs[i].target.None?) ==> r == Success(s)
    // the memory ends with the timestamp of the last call, if that call had a target
    ensures r.Success? && |inputs| > 0 && inputs[|inputs| - 1].target.Some? ==>
              r.value.lastTime == Some(inputs[|inputs| - 1].now)
    decreases |inputs|
  {
    if |inputs| == 0 then Success(s)
    else
      var i := inputs[0];
      match Step(g, maxDuty, s, i.currentRpm, i.target, i.lastDuty, i.startTime, i.now)
      case Failure(e) => Failure(e)
      case Success(o) =>
        assert forall j :: 0 <= j < |inputs[1..]| ==> inputs[1..][j] == inputs[j + 1];
        Steps(g, maxDuty, o.state, inputs[1..])
  }

  /** After any sequence of calls the memory holds the timestamp of the last
      call that had a target: the calls without one after it leave it alone. */
  lemma {:induction false} StepsEndWithLastTargetedTime(g: Gains, maxDuty: nat, s: PidState,
                                                        inputs: seq<StepInput>, k: nat)
    requires k < |inputs| && inputs[k].target.Some?
    requires forall j :: k < j < |inputs| ==> inputs[j].target.None?
    ensures Steps(g, maxDuty, s, inputs).Success? ==>
              Steps(g, maxDuty, s, inputs).value.lastTime == Some(inputs[k].now)
    decreases |inputs|
  {
    var i := inputs[0];
    var r := Step(g, maxDuty, s, i.currentRpm, i.target, i.lastDuty, i.startTime, i.now);
    assert forall j :: 0 <= j < |inputs[1..]| ==> inputs[1..][j] == inputs[j + 1];
    if r.Success? {
      if k == 0 {
        assert forall j :: 0 <= j < |inputs[1..]| ==> inputs[1..][j].target.None?;
      } else {
        StepsEndWithLastTargetedTime(g, maxDuty, r.value.state, inputs[1..], k - 1);
      }
    }
  }

  /** A sequence of calls from a bounded memory keeps the integral bounded,
      whatever the errors, targets and elapsed times are. */
  lemma {:induction false} StepsKeepIntegralBounded(g: Gains, maxDuty: nat, s: PidState, inputs: seq<StepInput>)
    requires IntegralBounded(s, maxDuty)
    ensures Steps(g, maxDuty, s, inputs).Success? ==> IntegralBounded(Steps(g, maxDuty, s, inputs).value, maxDuty)
    decreases |inputs|
  {
    if |inputs| > 0 {
      var i := inputs[0];
      var r := Step(g, maxDuty, s, i.currentRpm, i.target, i.lastDuty, i.startTime, i.now);
      if r.Success? {
        StepsKeepIntegralBounded(g, maxDuty, r.value.state, inputs[1..]);
      }
    }
  }
}
