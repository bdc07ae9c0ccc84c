/** The three-band policy of the control loop (fan_controller.py): below 45 °C
    the fan is off, from 70 °C it runs flat out, and in between a target RPM is
    mapped linearly from the smoothed temperature and handed to the PID step. */
module SpeedMapper {
  import opened Common

  /** Lower edge of the closed-loop band, in °C. */
  const OffBelow: real := 45.0
  /** Lower edge of the full-speed band, in °C. */
  const FullFrom: real := 70.0
  /** Target RPM at the bottom of the closed-loop band. */
  const MinRpm: real := 1500.0
  /** Target RPM of the full-speed band and cap of the linear map. */
  const MaxRpm: real := 5000.0
  /** RPM added per °C above the lower edge: 3500 over 24 degrees. */
  const Slope: real := 3500.0 / 24.0

  /** The regime a smoothed temperature selects. Only `ClosedLoop` engages the PID. */
  datatype Regime = Off | ClosedLoop(target: real) | FullSpeed

  /** `max(1500, min(5000, 1500 + (t - 45) * (3500 / 24)))`. */
  function LinearTarget(t: real): (r: real)
    ensures MinRpm <= r <= MaxRpm
    ensures t <= OffBelow ==> r == MinRpm
    ensures t >= 69.0 ==> r == MaxRpm
    // inside [45, 69] neither clamp binds: the target is the straight line
    ensures OffBelow <= t <= 69.0 ==> r == MinRpm + (t - OffBelow) * Slope
  {
    Max(MinRpm, Min(MaxRpm, MinRpm + (t - OffBelow) * Slope))
  }

  /** The linear map never decreases as the temperature rises. */
  lemma LinearTargetMonotone(a: real, b: real)
    requires a <= b
    ensures LinearTarget(a) <= LinearTarget(b)
  {
  }

  /** Band selection: off strictly below 45, full speed from 70 on, otherwise
      closed loop towards the linear target. */
  function SelectRegime(t: real): (r: Regime)
    ensures r.Off? <==> t < OffBelow
    ensures r.FullSpeed? <==> t >= FullFrom
    ensures r.ClosedLoop? ==> r.target == LinearTarget(t) && MinRpm <= r.target <= MaxRpm
  {
    if t < OffBelow then Off
    else if t >= FullFrom then FullSpeed
    else ClosedLoop(LinearTarget(t))
  }

  /** The `target_rpm` value the loop records: 0 when off, 5000 at full speed,
      the linear target in between. */
  function TargetRpm(t: real): (r: real)
    ensures t < OffBelow ==> r == 0.0
    ensures t >= FullFrom ==> r == MaxRpm
    ensures OffBelow <= t < FullFrom ==> MinRpm <= r <= MaxRpm
    ensures t == OffBelow ==> r == MinRpm
    ensures t >= 69.0 ==> r == MaxRpm
  {
    match SelectRegime(t)
    case Off => 0.0
    case ClosedLoop(target) => target
    case FullSpeed => MaxRpm
  }

  /** Across all three bands the target never decreases as the temperature
      rises: the off value lies below the band's minimum and the linear map
      already saturates at 5000 before the full-speed band begins. */
  lemma TargetRpmMonotone(a: real, b: real)
    requires a <= b
    ensures TargetRpm(a) <= TargetRpm(b)
  {
  }

  /** At 57 °C, twelve degrees into the band, the target is 1500 + 12 * 3500 / 24. */
  lemma TargetAt57()
    ensures TargetRpm(57.0) == 3250.0
  {
  }
}
