/** The optional-value datatype shared by the modules of this model. */
module Wrappers {

  /** A value that may be absent: PHP's `null` on one side, a present value on the other. */
  datatype Option<+T> = None | Some(value: T)
}
