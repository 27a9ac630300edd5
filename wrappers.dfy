/** Failure-compatible wrappers shared by the three models. */
module Wrappers {

  /** Python's `None` or a present value; also "attribute set / not set". */
  datatype Option<+T> = None | Some(value: T) {
    function GetOr(default: T): T {
      match this
      case Some(v) => v
      case None => default
    }
  }

  /** The value an operation returns, or the exception it raises. */
  datatype Result<+T, +E> = Ok(value: T) | Err(error: E)

  /** An argument that is either one value or a sequence of them (`utils.is_sequence`). */
  datatype OneOrMany<T> = One(item: T) | Many(items: seq<T>)

  /** A single value is wrapped in a one-element list. */
  function AsList<T>(a: OneOrMany<T>): seq<T> {
    match a
    case One(x) => [x]
    case Many(xs) => xs
  }

  function Max(a: int, b: int): int {
    if a >= b then a else b
  }

  function Min(a: int, b: int): int {
    if a <= b then a else b
  }

  function MaxReal(a: real, b: real): real {
    if a >= b then a else b
  }

  function MinReal(a: real, b: real): real {
    if a <= b then a else b
  }
}
