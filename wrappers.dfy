/** Optional values: JSON `null` or an absent property on one side, a present value on the other. */
module Wrappers {
  datatype Option<+T> = None | Some(value: T)
}
