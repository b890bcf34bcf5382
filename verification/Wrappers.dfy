/** The option type used for nullable pointers and absent threads. */
module Wrappers {
  datatype Option<+T> = None | Some(value: T)
}
