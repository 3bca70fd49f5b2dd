/** Small shared datatypes: an optional value, and the pass/throw outcome of a validator. */
module Wrappers {

  datatype Option<+T> = None | Some(value: T)

  /** A validator that returns normally (`Pass`) or throws an `Error` carrying `message`. */
  datatype Outcome = Pass | Fail(message: string)
}
