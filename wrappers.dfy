/** Failure-carrying results shared by every module of the model.
    The Go sources return `error` values built with `errors.New`; the model keeps
    the message text so that contracts can say WHICH error a call reports. */
module Wrappers {

  datatype Option<+T> = None | Some(value: T)

  /** The result of a Go function returning `(T, error)`. */
  datatype Result<+T> = Ok(value: T) | Err(msg: string)

  /** The result of a Go function returning only `error`: `Pass` is `nil`. */
  datatype Outcome = Pass | Fail(msg: string)
}
