/** The `Option` and `Result` datatypes shared by the modules. */
module Outcomes {

  /** A value that may be absent: a nullable foreign key, a missing dictionary entry. */
  datatype Option<+T> = None | Some(value: T)

  /** The result of an operation that either returns a value or raises an error. */
  datatype Result<+T, +E> = Ok(value: T) | Err(error: E)
}
