/** Optional values and outcomes shared by every model in this project. */
module Wrappers {

  datatype Option<+T> = None | Some(value: T)

  /** The outcome of an operation that the source ends either with a value or by throwing. */
  datatype Result<+T> = Ok(value: T) | Refused
}
