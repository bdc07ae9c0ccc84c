/** Exponential smoothing of the CPU temperature (temperature.py). Reading the
    sensor itself is I/O and is an input of the control loop instead. */
module Temperature {
  import opened Common

  /** The default `alpha` of smooth_temperature; the control loop relies on it. */
  const DefaultAlpha: real := 0.1

  /** `alpha * current + (1 - alpha) * last`: for a weight in [0, 1] the result
      is a convex combination of the two readings. */
  function Smooth(current: real, last: real, alpha: real): (r: real)
    ensures 0.0 <= alpha <= 1.0 ==> Min(current, last) <= r <= Max(current, last)
    ensures current == last ==> r == last
    ensures alpha == 1.0 ==> r == current
    ensures alpha == 0.0 ==> r == last
    // each reading moves the history by the fraction alpha of the gap
    ensures r - last == alpha * (current - last)
  {
    ConvexBounds(current, last, alpha);
    alpha * current + (1.0 - alpha) * last
  }

  /** The product of two non-negative reals is non-negative. */
  lemma MulNonNegative(a: real, b: real)
    requires 0.0 <= a && 0.0 <= b
    ensures 0.0 <= a * b
  {
  }

  /** A weight in [0, 1] keeps the weighted mean of two reals between them. */
  lemma ConvexBounds(x: real, y: real, alpha: real)
    ensures 0.0 <= alpha <= 1.0 ==> Min(x, y) <= alpha * x + (1.0 - alpha) * y <= Max(x, y)
  {
    if alpha < 0.0 || 1.0 < alpha {
    } else if x <= y {
      MulNonNegative(alpha, y - x);
      MulNonNegative(1.0 - alpha, y - x);
    } else {
      MulNonNegative(alpha, x - y);
      MulNonNegative(1.0 - alpha, x - y);
    }
  }

  /** A larger new reading never yields a smaller smoothed value. */
  lemma SmoothMonotone(c1: real, c2: real, last: real, alpha: real)
    requires 0.0 <= alpha
    requires c1 <= c2
    ensures Smooth(c1, last, alpha) <= Smooth(c2, last, alpha)
  {
    MulNonNegative(alpha, c2 - c1);
  }

  /** If both readings lie in a band [lo, hi], so does the smoothed value. */
  lemma SmoothStaysInBand(current: real, last: real, alpha: real, lo: real, hi: real)
    requires 0.0 <= alpha <= 1.0
    requires lo <= current <= hi
    requires lo <= last <= hi
    ensures lo <= Smooth(current, last, alpha) <= hi
  {
  }
}
