/** Failure-compatible optional value shared by the modules of this model. */
module Wrappers {

  /** `None` stands for a lookup that raises, or for a value that is not a number. */
  datatype Option<+T> = None | Some(value: T)
}
