/** The `-` and `+` buttons of a numeric control row
    (src/components/ControlRow.tsx). Values, steps and bounds are counted in
    tenths: the steps in use are 1 and 0.5 and every bound is whole, so
    `Number(x.toFixed(1))` leaves each intermediate value as it is and the
    arithmetic is exact. */
module Stepper {
  import opened Common

  /** `Math.max(min, value - step)`. */
  function Decrement(value: int, step: int, min: int): (r: int)
    ensures r >= min
    ensures r >= value - step
    ensures r == min || r == value - step
  {
    Max(min, value - step)
  }

  /** `Math.min(max, value + step)`. */
  function Increment(value: int, step: int, max: int): (r: int)
    ensures r <= max
    ensures r <= value + step
    ensures r == max || r == value + step
  {
    Min(max, value + step)
  }

  /** From a value in range, with a non-negative step, both buttons stay in
      range. */
  lemma StaysInRange(value: int, step: int, min: int, max: int)
    requires min <= value <= max && step >= 0
    ensures min <= Decrement(value, step, min) <= max
    ensures min <= Increment(value, step, max) <= max
  {
  }

  /** At a bound the corresponding button changes nothing. */
  lemma FixedAtBounds(step: int, min: int, max: int)
    requires step >= 0
    ensures Decrement(min, step, min) == min
    ensures Increment(max, step, max) == max
  {
  }

  /** Away from the bounds the step is taken exactly. */
  lemma ExactAwayFromBounds(value: int, step: int, min: int, max: int)
    ensures value - step >= min ==> Decrement(value, step, min) == value - step
    ensures value + step <= max ==> Increment(value, step, max) == value + step
  {
  }

  /** `-` never raises a value that is at least `min`, and `+` never lowers
      one that is at most `max`; each is monotone in the value. */
  lemma Monotone(value: int, value': int, step: int, min: int, max: int)
    requires step >= 0
    ensures value >= min ==> Decrement(value, step, min) <= value
    ensures value <= max ==> Increment(value, step, max) >= value
    ensures value <= value' ==> Decrement(value, step, min) <= Decrement(value', step, min)
    ensures value <= value' ==> Increment(value, step, max) <= Increment(value', step, max)
  {
  }

  /** A `-` that did not clamp is undone by a `+`, and the other way round. */
  lemma UndoUnclamped(value: int, step: int, min: int, max: int)
    requires value <= max && value - step >= min
    ensures Increment(Decrement(value, step, min), step, max) == value
    ensures value + step <= max && value >= min ==> Decrement(Increment(value, step, max), step, min) == value
  {
  }
}
