/** Shared result types: Python's `None` and the exceptions the modelled functions raise. */
module Prelude {
  datatype Option<+T> = None | Some(value: T)

  datatype Result<+T, +E> = Ok(value: T) | Err(error: E)

  /** max(n, 0). */
  function Cap(n: int): nat {
    if n > 0 then n else 0
  }

  /** `a or b` on an optional value. */
  function OrElse<T>(a: Option<T>, b: T): T {
    if a.Some? then a.value else b
  }
}
