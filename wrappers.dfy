// An optional value: a ray cast that may miss, a record field that may not be set yet.
module Wrappers {
  datatype Option<T> = None | Some(value: T)
}
