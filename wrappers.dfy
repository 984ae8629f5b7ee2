/** Small failure-carrying datatypes shared by the whole model. */
module Wrappers {

  /** A value that may be absent; `None` plays Python's `None`. */
  datatype Option<+T> = None | Some(value: T)

  /** The outcome of a Python call that either returns a value or raises. */
  datatype Result<+T, +E> = Ok(value: T) | Err(error: E)

  /** A keyword argument of a `**kwargs` call: either not passed at all, or passed with a value. */
  datatype Kwarg<+T> = Missing | Passed(value: T)
}
