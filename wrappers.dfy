/** Small wrappers shared by every stage of the pipeline. */
module Wrappers {

  /** A value that may be absent: the model of a C# `null` result. */
  datatype Option<+T> = None | Some(value: T)
}
