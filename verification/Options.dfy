/** A value that may be absent: nil pointers, missing map entries, SQL NULLs. */
module Options {
  datatype Option<+T> = None | Some(value: T)
}
