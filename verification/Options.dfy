/** A value that may be absent: a null pointer, an empty std::optional, an empty callback. */
module Options {
  datatype Option<+T> = None | Some(value: T)
}
