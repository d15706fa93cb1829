/** Stand-in for C#'s nullable references and values: `None` is `null`. */
module Wrappers {
  datatype Option<+T> = None | Some(value: T)
}
