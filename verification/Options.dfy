/** A value that may be missing: Go's (value, ok) results, absent map entries and parse errors. */
module Options {
  datatype Option<+T> = None | Some(value: T)
}
