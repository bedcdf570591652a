/** Go's `error` values and the two-valued returns built from them. */
module Results {

  /** A Go error value; only its message is observable. */
  datatype Error = Error(message: string)

  /** A value that may be absent: `None` stands for Go's `nil`. */
  datatype Option<+T> = None | Some(value: T)

  /** A Go `(T, error)` return: exactly one of the two is meaningful. */
  datatype Result<+T> = Ok(value: T) | Err(error: Error)
}
