/** The optional value used for JSON fields that may be absent and for operations that may fail. */
module Wrappers {

  datatype Option<+T> = None | Some(value: T)
}
