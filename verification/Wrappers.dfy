/** The optional value used for nullable columns, missing keys and absent answers. */
module Wrappers {
  datatype Option<+T> = None | Some(value: T)
}
