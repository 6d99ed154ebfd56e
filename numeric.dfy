/** Numeric helpers shared by the model: Python's two-argument `max`/`min`
    on floats (modelled as reals) and the truncation toward zero performed by
    `int(x)` and by numpy's `astype(np.int32)`. */
module Numeric {

  function Max(a: real, b: real): real
  {
    if b > a then b else a
  }

  function Min(a: real, b: real): real
  {
    if b < a then b else a
  }

  /** Truncation toward zero: `int(r)` in Python, `astype(np.int32)` in numpy
      (the 32-bit range itself is not modelled). */
  function Trunc(r: real): (n: int)
    ensures 0.0 <= r ==> 0 <= n && n as real <= r < n as real + 1.0
    ensures r < 0.0 ==> n <= 0 && n as real - 1.0 < r <= n as real
  {
    if r >= 0.0 then r.Floor else -((-r).Floor)
  }
}
