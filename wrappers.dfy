/** An optional value, shared by the modules that read optional fields and lookups. */
module Wrappers {

  datatype Option<T> = None | Some(value: T)
}
