/** The Some/None datatype used where the Ruby code returns a value or nil. */
module Wrappers {

  datatype Option<+T> = None | Some(value: T)

}
