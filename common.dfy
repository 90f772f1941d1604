/**
 * Value types shared by the adapters and the endpoint: Python's optional
 * values, calls that may raise, and byte strings.
 */
module Common {

  /** A Python value that may be `None`. */
  datatype Option<+T> = None | Some(value: T)

  /** The outcome of a call that either returns a value or raises an exception. */
  datatype Attempt<+T> = Returned(value: T) | Raised

  /** One byte of a Python `bytes` object. */
  newtype byte = x: int | 0 <= x < 256

  type Bytes = seq<byte>

  /**
   * Python truthiness of an optional `str`, `bytes` or `list`:
   * `None` and the empty sequence are false, everything else is true.
   */
  predicate Present<T>(o: Option<seq<T>>)
  {
    o.Some? && |o.value| > 0
  }
}
