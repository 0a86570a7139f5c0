/** The optional value used for the record and profile fields that may be `undefined`. */
module Wrappers {

  datatype Option<+T> = None | Some(value: T)
}
