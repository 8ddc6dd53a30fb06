/** A value or none: the C code's NULL, -1 and "not found". */
module Options {
  datatype Option<T> = None | Some(value: T)
}
