/** Small shared datatypes. */
module Common {

  /** A value that may be absent: a Go map lookup's `ok`, a parse that failed. */
  datatype Option<T> = None | Some(value: T)
}
