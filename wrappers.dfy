/** The usual optional value, used where a script step may yield nothing. */
module Wrappers {

  datatype Option<T> = None | Some(value: T)
}
