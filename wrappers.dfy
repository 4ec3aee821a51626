/** The optional result of a registry lookup: C#'s `null` becomes `None`. */
module Wrappers {
  datatype Option<+T> = None | Some(value: T)
}
