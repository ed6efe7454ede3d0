/** Optional values and results shared by the models. */
module Common {
  datatype Option<+T> = None | Some(value: T)

  datatype Result<+T, +E> = Ok(value: T) | Err(error: E)

  function Min(a: int, b: int): int {
    if a <= b then a else b
  }

  function Max(a: int, b: int): int {
    if a >= b then a else b
  }

  /** The number, or the default where there is none, unless it lies outside the range: then the end it is nearest to. */
  ghost function Clamped(raw: Option<int>, default: int, low: int, high: int): int {
    var value := if raw.Some? then raw.value else default;
    if value < low then low else if value > high then high else value
  }

  /** A configured number forced into its range, with a default for unreadable text. */
  function BoundedInteger(raw: Option<int>, default: int, minimum: int, maximum: int): (r: int)
    requires minimum <= maximum
    ensures minimum <= r <= maximum
    ensures r == Clamped(raw, default, minimum, maximum)
  {
    var value := if raw.Some? then raw.value else default;
    Max(minimum, Min(maximum, value))
  }
}
