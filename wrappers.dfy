/** The optional value used for the shutdown slot's content and for optional results. */
module Wrappers {

  datatype Option<+T> = None | Some(value: T)
}
