/** The optional value used for nullable columns and absent channels. */
module Wrappers {

  datatype Option<+T> = None | Some(value: T)
}
