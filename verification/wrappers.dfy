/** Small failure-carrying datatypes used across the model: `Option` stands for a
    JavaScript value that may be `null`/`undefined`, `Result` for an operation that
    either yields a value or raises an error. */
module Wrappers {

  datatype Option<+T> = None | Some(value: T)

  datatype Result<+R, +E> = Success(value: R) | Failure(error: E)
}
