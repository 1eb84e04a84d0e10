/** The optional value used wherever the program returns `std::optional` or a pointer that may be null. */
module Options {
  datatype Option<+T> = None | Some(value: T)
}
