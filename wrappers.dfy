/** Failure-compatible wrappers: an optional value (std::optional, or a nullable handle) and the
    outcome of a step that may throw. */
module Wrappers {

  datatype Option<+T> = None | Some(value: T)

  /** Pass, or the exception a setup step threw. */
  datatype Outcome<+E> = Pass | Fail(error: E)
}
