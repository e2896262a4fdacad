/** C#'s `Nullable<T>` (written `T?` in the source): a value or `null`. */
module Wrappers {
  datatype Option<+T> = None | Some(value: T)
}
