/** Option and Result, shared by every module of the model. */
module Common {

  datatype Option<+T> = None | Some(value: T) {
    function GetOr(default: T): T {
      match this
      case Some(v) => v
      case None => default
    }
  }

  /** The outcome of an operation that the source signals by throwing. */
  datatype Result<+T, +E> = Ok(value: T) | Err(error: E)

  /** Milliseconds since the epoch, as returned by `Date.now()`. */
  type Millis = int

  const MillisPerDay: int := 24 * 60 * 60 * 1000
}
