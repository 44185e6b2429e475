/** The optional value used throughout the model. */
module Wrappers {

  /** `None` stands for JavaScript's `undefined` wherever the worker reads a missing value. */
  datatype Option<+T> = None | Some(value: T)
}
