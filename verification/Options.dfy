/** The one optional value type used throughout the project. */
module Options {
  datatype Option<+T> = None | Some(value: T)
}
