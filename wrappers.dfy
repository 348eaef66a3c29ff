/** The optional value used for the pages' optional fields and "no badge" results. */
module Wrappers {
  datatype Option<+T> = None | Some(value: T)
}
