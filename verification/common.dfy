/** Small shared datatypes. */
module Common {

  /** A value that may be absent: Python's `None` versus a value. */
  datatype Option<T> = None | Some(value: T)
}
