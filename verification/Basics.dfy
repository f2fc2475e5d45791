// Shared vocabulary: opaque identifiers and the Option datatype.
module Basics {
  // Identifiers are random strings in the Gateway; only equality matters here.
  type Id = nat

  datatype Option<+T> = None | Some(value: T)
}
