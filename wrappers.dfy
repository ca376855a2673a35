/** Optional values, used for absent query parameters, absent storage entries and NaN. */
module Wrappers {
  datatype Option<+T> = None | Some(value: T)
}
