/** A value that may be missing: a name that does not parse, an observation past the end of the trace. */
module Wrappers {
  datatype Option<+T> = None | Some(value: T)
}
