/** The threshold calibrator of python/core/utils.py: `clamp` and
    `calculate_dynamic_threshold`, which turns the energy readings collected
    while players stand still into the dynamic threshold used to tell play
    from stillness. */
module Threshold {
  import opened Configuration

  /** Noise floor used when no baseline reading was collected. */
  const FALLBACK_NOISE_FLOOR: real := 10.0

  /** `clamp(value, min_val, max_val) = max(min_val, min(value, max_val))`. */
  function Clamp(value: real, lo: real, hi: real): (r: real)
    ensures lo <= hi ==> lo <= r <= hi
    ensures lo <= value <= hi ==> r == value
    ensures value < lo ==> r == lo
    ensures lo <= hi < value ==> r == hi
    // With inverted bounds the lower bound wins.
    ensures hi < lo ==> r == lo
  {
    var capped := if hi < value then hi else value;
    if capped > lo then capped else lo
  }

  /** Python's `sum` over the readings. */
  function Sum(s: seq<real>): real
  {
    if s == [] then 0.0 else Sum(s[..|s| - 1]) + s[|s| - 1]
  }

  lemma {:induction false} SumBounds(s: seq<real>, lo: real, hi: real)
    requires forall i :: 0 <= i < |s| ==> lo <= s[i] <= hi
    ensures |s| as real * lo <= Sum(s) <= |s| as real * hi
  {
    if s != [] {
      SumBounds(s[..|s| - 1], lo, hi);
    }
  }

  /** The mean of the readings, or the fallback for an empty list. */
  function NoiseFloor(readings: seq<real>): (r: real)
    ensures readings == [] ==> r == FALLBACK_NOISE_FLOOR
  {
    if readings != [] then Sum(readings) / |readings| as real else FALLBACK_NOISE_FLOOR
  }

  /** The mean lies between any bounds on the readings. */
  lemma NoiseFloorWithin(readings: seq<real>, lo: real, hi: real)
    requires readings != []
    requires forall i :: 0 <= i < |readings| ==> lo <= readings[i] <= hi
    ensures lo <= NoiseFloor(readings) <= hi
  {
    var n := |readings| as real;
    SumBounds(readings, lo, hi);
    assert n * lo <= Sum(readings) <= n * hi;
    assert Sum(readings) / n >= lo by { DivideBounds(Sum(readings), n, lo); }
    assert Sum(readings) / n <= hi by { DivideBoundsUpper(Sum(readings), n, hi); }
  }

  lemma DivideBounds(x: real, n: real, lo: real)
    requires n > 0.0 && n * lo <= x
    ensures lo <= x / n
  {
  }

  lemma DivideBoundsUpper(x: real, n: real, hi: real)
    requires n > 0.0 && x <= n * hi
    ensures x / n <= hi
  {
  }

  /** A constant baseline yields that constant as noise floor. */
  lemma ConstantBaselineFloor(readings: seq<real>, v: real)
    requires readings != []
    requires forall i :: 0 <= i < |readings| ==> readings[i] == v
    ensures NoiseFloor(readings) == v
  {
    NoiseFloorWithin(readings, v, v);
  }

  /** `calculate_dynamic_threshold`: noise floor plus sensitivity, clamped to
      the safety rails. */
  function DynamicThreshold(readings: seq<real>, baseSensitivity: real, minThreshold: real, maxThreshold: real): (r: real)
    ensures minThreshold <= maxThreshold ==> minThreshold <= r <= maxThreshold
    ensures minThreshold <= NoiseFloor(readings) + baseSensitivity <= maxThreshold ==>
      r == NoiseFloor(readings) + baseSensitivity
    ensures readings == [] ==> r == Clamp(FALLBACK_NOISE_FLOOR + baseSensitivity, minThreshold, maxThreshold)
  {
    Clamp(NoiseFloor(readings) + baseSensitivity, minThreshold, maxThreshold)
  }

  /** With readings bounded by [lo, hi], the threshold is bounded by the
      clamped values of lo and hi plus the sensitivity: the calibration is
      monotone in the baseline. */
  lemma ThresholdFollowsBaseline(readings: seq<real>, lo: real, hi: real, sens: real, minT: real, maxT: real)
    requires readings != []
    requires forall i :: 0 <= i < |readings| ==> lo <= readings[i] <= hi
    ensures Clamp(lo + sens, minT, maxT) <= DynamicThreshold(readings, sens, minT, maxT) <= Clamp(hi + sens, minT, maxT)
  {
    NoiseFloorWithin(readings, lo, hi);
  }

  /** With the default rails (60, 60) every calibrated threshold is 60. */
  lemma DefaultThresholdIsSixty(readings: seq<real>)
    ensures DynamicThreshold(readings, Default().baseSensitivity, Default().minDynamicThreshold,
                             Default().maxDynamicThreshold) == 60.0
  {
  }
}
