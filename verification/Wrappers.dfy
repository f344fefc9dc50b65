/** The result shapes and the small arithmetic the rest of the project shares. */
module Wrappers {

  /** A pointer or a document field that may be absent. */
  datatype Option<+T> = None | Some(value: T) {
    function GetOr(otherwise: T): T {
      if Some? then value else otherwise
    }
  }

  /** A Go `(value, error)` pair: exactly one side is present. */
  datatype Result<+T, +E> = Ok(value: T) | Err(error: E)

  function Min(a: int, b: int): int {
    if a < b then a else b
  }
}
