/** The optional-value datatype used throughout the model. */
module Wrappers {

  /** `None` stands for JavaScript's `undefined` where a lookup or option may be absent. */
  datatype Option<+T> = None | Some(value: T)
}
