/** Optional values. `None` stands for what the page reads as `NaN` or `undefined`. */
module Wrappers {
  datatype Option<+T> = None | Some(value: T)
}
