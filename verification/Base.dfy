/** Shared value types: optional values, results and byte strings. */
module Base {

  datatype Option<+T> = None | Some(value: T) {
    function GetOr(default: T): T {
      match this
      case None => default
      case Some(v) => v
    }
  }

  datatype Result<+T, +E> = Ok(value: T) | Err(error: E)

  newtype Byte = b: int | 0 <= b < 256

  type Bytes = seq<Byte>

  /** A metadata entry as PHP or a credentials plugin gives it. */
  type Pair = (string, string)

  function Max(a: int, b: int): int {
    if a < b then b else a
  }
}
