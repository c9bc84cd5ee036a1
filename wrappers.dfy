/** Failure-carrying values shared by the model: an absent JavaScript value
    (`null`/`undefined`) is `None`, a thrown exception is `Err`/`Fail`. */
module Wrappers {

  datatype Option<+T> = None | Some(value: T)

  datatype Result<+T, +E> = Ok(value: T) | Err(error: E)

  datatype Outcome<+E> = Pass | Fail(error: E)
}
