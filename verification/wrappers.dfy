/** The optional value used for decoded bodies, returned errors and routes. */
module Wrappers {

  datatype Option<+T> = None | Some(value: T)
}
