/** Names shared by every module of the model. */
module Base {

  datatype Option<+T> = None | Some(value: T)

  datatype Result<+T, +E> = Ok(value: T) | Err(error: E)

  /** The later value wins when it is present: SQL's COALESCE(new, old). */
  function Coalesce<T>(newer: Option<T>, older: Option<T>): Option<T> {
    if newer.Some? then newer else older
  }

  /** One clock stands for both time.time() and time.monotonic(). */
  type Time = real

  /** What became of one journal transaction.  `Late` is a commit after which the capacity check still raised. */
  datatype Store = Good | RolledBack | Late
}
