/** The optional-value datatype used throughout the model. */
module Wrappers {

  /** `None` stands for JavaScript's `null`/`undefined` where the source tests a value for presence. */
  datatype Option<+T> = None | Some(value: T)
}
