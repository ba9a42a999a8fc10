/** Small wrapper types shared by the page models. */
module Basics {

  /** A value that may be absent. */
  datatype Option<+T> = None | Some(value: T)

  /** The result of a validation: it passes, or fails with the first error found. */
  datatype Outcome<+E> = Pass | Fail(error: E)
}
