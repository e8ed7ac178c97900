/** Option and Result, the two failure-carrying shapes the model uses for
    JavaScript's `undefined` values and thrown errors. */
module Wrappers {

  datatype Option<+T> = None | Some(value: T)

  /** `Ok` is a resolved promise or a returned value, `Err` a thrown error. */
  datatype Result<+T, +E> = Ok(value: T) | Err(error: E)
}
