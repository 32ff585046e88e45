/** Failure-carrying values shared by every module: Go's `(T, error)` results. */
module Wrappers {

  datatype Option<+T> = None | Some(value: T)

  /** A Go `error` value. `EOF` stands for `io.EOF`; every other error comes
      from a collaborator outside the model and is kept opaque. */
  datatype Error = EOF | Failure(message: string)

  datatype Result<+T> = Ok(value: T) | Err(error: Error)
}
