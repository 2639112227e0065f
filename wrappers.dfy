/** The optional value used for Swift's `String?` and for failable initialisers. */
module Wrappers {
  datatype Option<+T> = None | Some(value: T)
}
