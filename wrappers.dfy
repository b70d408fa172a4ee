/** An optional value, standing in for a nullable engine pointer. */
module Wrappers {

  datatype Option<+T> = None | Some(value: T)
}
