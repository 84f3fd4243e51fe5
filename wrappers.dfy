/** Option and Result, the return shapes used for Python's `None` results and raised exceptions. */
module Wrappers {
  datatype Option<+T> = None | Some(value: T)

  datatype Result<+T, +E> = Ok(value: T) | Err(error: E)

  /** `d.get(key, default)` once the lookup is an `Option`. */
  function OrElse<T>(o: Option<T>, default: T): T {
    match o
    case Some(v) => v
    case None => default
  }

  /** `min(a, b)` */
  function Min(a: int, b: int): int {
    if a <= b then a else b
  }
}
