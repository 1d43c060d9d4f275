/**
 * The value held by a gain node's `gain` parameter.
 *
 * `setPreampGain` stores `Math.pow(10, dbGain / 20)`, a floating-point power that
 * the model does not evaluate. The parameter is therefore kept symbolically: either
 * a linear value written directly, or the decibel figure it was converted from.
 * `ExactValue` interprets the decibel form exactly where the power is a whole power
 * of ten, that is, for integer multiples of 20 dB.
 */
module Decibels {
  import opened Wrappers

  datatype Amplitude = Linear(value: real) | FromDecibels(db: real)

  /** 10 raised to a natural power. */
  function Pow10(k: nat): (r: real)
    ensures r >= 1.0
  {
    if k == 0 then 1.0 else 10.0 * Pow10(k - 1)
  }

  /** The linear amplitude of `a`, where the model can state it exactly. */
  function ExactValue(a: Amplitude): Option<real>
  {
    match a
    case Linear(v) => Some(v)
    case FromDecibels(db) =>
      var k := (db / 20.0).Floor;
      if k as real * 20.0 != db then None
      else if k >= 0 then Some(Pow10(k))
      else Some(1.0 / Pow10(-k))
  }

  /**
   * A gain of 20*k dB is the linear factor 10^k, and 0 dB is unity:
   * the conversion `10^(db/20)` at the points where it is exact.
   */
  lemma DecibelsAtMultiplesOfTwenty(k: int)
    ensures ExactValue(FromDecibels(20.0 * k as real)) ==
            Some(if k >= 0 then Pow10(k) else 1.0 / Pow10(-k))
    ensures ExactValue(FromDecibels(0.0)) == Some(1.0)
  {
    var db := 20.0 * k as real;
    assert db / 20.0 == k as real;
    assert (db / 20.0).Floor == k;
    assert (0.0 / 20.0).Floor == 0;
  }
}
