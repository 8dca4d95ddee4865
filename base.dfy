/** Vocabulary shared by every store: optional values, timestamps, identifiers,
    and the clamped ratio behind both progress indicators. */
module Base {

  /** Swift's `Optional`. */
  datatype Option<+T> = None | Some(value: T) {

    /** Swift's `??`: the wrapped value, or `default` when there is none. */
    function GetOr(default: T): T {
      match this
      case Some(v) => v
      case None => default
    }
  }

  /** A `Date`, as whole seconds since a fixed epoch. */
  type Timestamp = int

  /** A `UUID`; the stores only ever compare identifiers for equality. */
  type Id = int

  function Min(a: real, b: real): real {
    if a <= b then a else b
  }

  /** `min(num / den, 1.0)`, or 0 when the denominator is not positive:
      the shape of both `FastSession.progress` and `WaterIntakeStore.progress`. */
  function ClampedRatio(num: int, den: int): (r: real)
    ensures den <= 0 ==> r == 0.0
    ensures den > 0 ==> r <= 1.0
    ensures den > 0 ==> (r == 1.0 <==> num >= den)
    ensures den > 0 && num < den ==> r == num as real / den as real
    ensures den > 0 && num >= 0 ==> 0.0 <= r
  {
    if den <= 0 then 0.0
    else
      var q := num as real / den as real;
      assert q * den as real == num as real;
      Min(q, 1.0)
  }

  /** For a fixed denominator the clamped ratio never decreases as the numerator grows. */
  lemma ClampedRatioMonotone(a: int, b: int, den: int)
    requires a <= b
    ensures ClampedRatio(a, den) <= ClampedRatio(b, den)
  {
    if den > 0 {
      var d := den as real;
      assert (b as real - a as real) / d >= 0.0;
      assert b as real / d - a as real / d == (b as real - a as real) / d;
    }
  }
}
