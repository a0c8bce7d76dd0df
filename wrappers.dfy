/** A value that may be absent: a missing JSON field, a scan that raised, a line that does not parse. */
module Wrappers {

  datatype Option<+T> = None | Some(value: T)

}
