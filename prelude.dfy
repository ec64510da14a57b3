/** Small shared datatypes: an optional value and the outcome of a call that may throw. */
module Prelude {

  datatype Option<T> = None | Some(value: T) {
    function GetOr(default: T): T {
      match this
      case Some(v) => v
      case None => default
    }
  }

  /** The outcome of a PHP call that either returns a value or throws an exception. */
  datatype Result<T> = Ok(value: T) | Thrown(message: string)

  function Min(a: int, b: int): int {
    if a <= b then a else b
  }
}
