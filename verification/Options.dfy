// A value or its absence: a nullable column, a missing row, an optional argument.
module Options {
  datatype Option<+T> = None | Some(value: T)
}
