/** Values shared by every part of the model: an optional value (JavaScript's
    `null`/`undefined` versus a present value) and JavaScript truthiness for the
    few value kinds the screens test with `!x` or `x || default`. */
module Common {

  datatype Option<+T> = None | Some(value: T)

  /** The work shift recorded with every entry (`'day' | 'night'`). */
  datatype Shift = Day | Night

  /** `!!participantNumber` for a `number | null`: null and 0 are falsy. */
  predicate PresentNumber(n: Option<int>)
  {
    n.Some? && n.value != 0
  }

  /** `!!s` for a `string | undefined`: undefined and the empty string are falsy. */
  predicate PresentText(s: Option<string>)
  {
    s.Some? && s.value != ""
  }

  /** `currentShift || 'day'`: a missing shift defaults to the day shift. */
  function ShiftOrDay(shift: Option<Shift>): (r: Shift)
    ensures shift.Some? ==> r == shift.value
    ensures shift.None? ==> r == Day
  {
    match shift
    case Some(s) => s
    case None => Day
  }

  function Max(a: int, b: int): (r: int)
    ensures r >= a && r >= b
    ensures r == a || r == b
  {
    if a >= b then a else b
  }
}
