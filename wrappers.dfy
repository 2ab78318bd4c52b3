/** Optional values: the model of Swift's `T?`. */
module Wrappers {

  /** `None` is Swift's `nil`; `Some(v)` is a present value. */
  datatype Option<+T> = None | Some(value: T)
}
