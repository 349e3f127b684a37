/** A minimal Option type: `None` stands for a missing value (pandas NaN). */
module Wrappers {
  datatype Option<+T> = None | Some(value: T)
}
