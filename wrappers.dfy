/** An optional value, used for partial lookups and operations that can fail. */
module Wrappers {

  datatype Option<+T> = None | Some(value: T)
}
