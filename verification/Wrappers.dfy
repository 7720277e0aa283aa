// The two result shapes used throughout: an optional column value, and a service call
// that either commits or raises.
module Wrappers {

  datatype Option<+T> = None | Some(value: T)

  datatype Result<+T, +E> = Ok(value: T) | Err(error: E)

  // A patch's value where it has one.
  function Or<T>(patch: Option<T>, current: T): T {
    if patch.Some? then patch.value else current
  }
}
