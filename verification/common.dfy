/** Small shared vocabulary: optional values, the failure a control step can
    end in, and minimum, maximum and distance on reals. */
module Common {

  /** An absent or a present value. */
  datatype Option<+T> = None | Some(value: T)

  /** How a control step can fail: the only failure in the model is a division
      by a zero elapsed time. */
  datatype Error = ZeroDivisionError

  /** Either the step completed with a value, or it failed. */
  datatype Result<+T> = Success(value: T) | Failure(error: Error)

  function Min(a: real, b: real): real
  {
    if b < a then b else a
  }

  function Max(a: real, b: real): real
  {
    if b > a then b else a
  }

  /** Distance between two reals, used to say "the nearest point". */
  function Dist(a: real, b: real): real
  {
    if a >= b then a - b else b - a
  }

  /** `r` is the point of [lo, hi] closest to `x`. */
  ghost predicate NearestInRange(r: real, x: real, lo: real, hi: real)
  {
    && lo <= r <= hi
    && forall y :: lo <= y <= hi ==> Dist(r, x) <= Dist(y, x)
  }
}
