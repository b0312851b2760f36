/** Failure-carrying result types shared by every module of the model. */
module Wrappers {

  /** An optional value: a Go pointer that may be nil, a map lookup that may miss,
      a TypeScript value that may be `undefined`. */
  datatype Option<T> = None | Some(value: T)

  /** A value or the text of the Go `error` returned in its place. */
  datatype Result<T> = Ok(value: T) | Err(error: string)
}
