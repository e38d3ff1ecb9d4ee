/** Option and Result, the two failure-carrying shapes the model uses. */
module Wrappers {

  /** A value that may be absent: an optional request field, a lookup that found nothing. */
  datatype Option<+T> = None | Some(value: T)

  /** The outcome of a service call: a value, or the error the service throws. */
  datatype Result<+T, +E> = Ok(value: T) | Err(error: E)
}
