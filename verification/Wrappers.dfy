/** The two failure-carrying datatypes the models share. */
module Wrappers {

  datatype Option<T> = None | Some(value: T) {
    function UnwrapOr(default: T): T {
      match this
      case Some(v) => v
      case None => default
    }
  }

  datatype Result<R, E> = Ok(value: R) | Err(error: E)
}
