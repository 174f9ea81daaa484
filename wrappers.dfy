/** The result of an operation that can fail: either a value or an error. */
module Wrappers {

  datatype Result<+T, +E> = Ok(value: T) | Err(error: E)

}
