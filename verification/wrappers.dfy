/** A field of a logged JSON record that may be absent (or `null`). */
module Wrappers {

  datatype Option<+T> = None | Some(value: T)

}
