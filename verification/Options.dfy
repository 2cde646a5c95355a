/** The value or nothing of a nullable pointer or std::optional. */
module Options {
  datatype Option<+T> = None | Some(value: T)
}
