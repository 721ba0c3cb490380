/** Small vocabulary shared by every component. */
module Prelude {
  datatype Option<+T> = None | Some(value: T)

  datatype Result<+T, +E> = Ok(value: T) | Err(error: E)

  /** Seconds on a clock; Python's `datetime` and `time.time()` both have fractions. */
  type Time = real

  /** `int(x)` on a float: the fraction is dropped, towards zero. */
  function Truncate(x: real): int {
    if x >= 0.0 then x.Floor else -(-x).Floor
  }
}
