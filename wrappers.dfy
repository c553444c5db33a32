/** Failure-carrying values shared by the other modules: a Java reference that
    may be null, a check that may throw, a call that may throw or return. */
module Wrappers {

  /** A value that may be absent (a Java reference that may be null). */
  datatype Option<+T> = None | Some(value: T)

  /** The outcome of a check that either passes or throws `error`. */
  datatype Outcome<+E> = Pass | Fail(error: E)

  /** The outcome of a call that either returns `value` or throws `error`. */
  datatype Result<+R, +E> = Ok(value: R) | Err(error: E)
}
