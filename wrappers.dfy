/** A value that may be absent: the model's stand-in for a C# `null` reference. */
module Wrappers {

  datatype Option<+T> = None | Some(value: T)
}
