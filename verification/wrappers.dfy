/** Optional values and results with an error, used where the reconstructed
    tables have absent cells (pandas' NaN) or where construction can fail. */
module Wrappers {

  /** A value that may be absent; `None` plays the part of a NaN cell. */
  datatype Option<+T> = None | Some(value: T) {

    /** The value if present, else the given default (pandas' `combine_first`). */
    function OrElse(other: Option<T>): Option<T> {
      if Some? then this else other
    }
  }

  /** The outcome of an operation that either yields a value or fails with an error. */
  datatype Result<+T, +E> = Success(value: T) | Failure(error: E)
}
