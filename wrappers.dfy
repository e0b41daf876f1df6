/** The optional value used where the source holds a std::optional or a value that may be null. */
module Wrappers {
  datatype Option<+T> = None | Some(value: T)
}
