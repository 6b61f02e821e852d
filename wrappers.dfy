/** Small optional-value datatype shared by the model. */
module Wrappers {

  /** `None` stands for a value that does not exist (for a floating-point
      result, NaN). */
  datatype Option<+T> = None | Some(value: T)
}
