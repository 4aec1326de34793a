/** The optional value used for nullable fields and query parameters. */
module Wrappers {

  datatype Option<+T> = None | Some(value: T)
}
