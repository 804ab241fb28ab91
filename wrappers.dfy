/** The optional value used wherever the component stores `null` or leaves a field undefined. */
module Wrappers {
  datatype Option<+T> = None | Some(value: T)
}
