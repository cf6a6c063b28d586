/** `src/lib/app-utils.ts`: clamping a number into a range. */
module AppUtils {

  /** `Math.min(max, Math.max(min, value))`. */
  function Clamp(value: int, min: int, max: int): (r: int)
    ensures min <= max ==> min <= r <= max
    ensures min <= value <= max ==> r == value
    ensures min > max ==> r == max
    ensures r == value || r == min || r == max
  {
    var low := if value < min then min else value;
    if low < max then low else max
  }

  /** Clamping twice into the same range is clamping once. */
  lemma ClampIdempotent(value: int, min: int, max: int)
    ensures Clamp(Clamp(value, min, max), min, max) == Clamp(value, min, max)
  {
  }

  /** Clamping is monotone: a larger value never clamps to a smaller result. */
  lemma ClampMonotone(a: int, b: int, min: int, max: int)
    requires a <= b
    ensures Clamp(a, min, max) <= Clamp(b, min, max)
  {
  }
}
