/** The optional value used for Swift's `String?` and for the decoders' results. */
module Wrappers {
  datatype Option<+T> = None | Some(value: T)
}
