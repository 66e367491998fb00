/** The optional value used for the page's nullable state (`T | null`). */
module Wrappers {

  datatype Option<+T> = None | Some(value: T)
}
