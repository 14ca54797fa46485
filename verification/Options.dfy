/** Shared value types. */
module Options {
  /** A value that may be absent: a missing file, a null reply, an unset field. */
  datatype Option<+T> = None | Some(value: T)

  /** The value of a computation that the original ends by throwing or exiting. */
  datatype Result<+T> = Ok(value: T) | Err(why: string)
}
