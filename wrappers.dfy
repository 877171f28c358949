/** Failure-carrying result types used across the model: `Option` stands for a
    JavaScript value that may be `null`/`undefined`, `Result` for an operation
    that may throw an `Error` with a message. */
module Wrappers {

  datatype Option<+T> = None | Some(value: T)

  datatype Result<+T> = Ok(value: T) | Err(message: string)
}
