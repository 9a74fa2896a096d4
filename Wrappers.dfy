/** An optional value: an option of the configuration that may be absent. */
module Wrappers {

  datatype Option<T> = None | Some(value: T)
}
