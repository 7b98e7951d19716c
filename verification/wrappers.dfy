/** A nullable value: C's `NULL` pointer or a present value. */
module Wrappers {
  datatype Option<+T> = None | Some(value: T)
}
