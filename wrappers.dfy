/** The optional value used for a match that may fail and a page that may be missing. */
module Wrappers {

  datatype Option<+T> = None | Some(value: T)
}
