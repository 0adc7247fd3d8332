/** Optional values and the outcome of an awaited call. */
module Wrappers {

  /** A value that may be absent: `null`/`undefined` in the dashboard's records. */
  datatype Option<+T> = None | Some(value: T)

  /** What awaiting a promise produces: the resolved value, or a thrown error. */
  datatype Outcome<+T> = Returns(value: T) | Throws
}
