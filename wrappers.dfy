/** The optional-value datatype shared by the model. */
module Wrappers {

  /** `None` stands for a value that is absent or not a number. */
  datatype Option<+T> = None | Some(value: T)
}
