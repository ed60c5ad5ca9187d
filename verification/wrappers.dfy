/** Failure-carrying values for the places where the generator would raise
    (an unknown dictionary key, `list.index` on a missing element, `min` of
    an empty list). */
module Wrappers {

  datatype Option<+T> = None | Some(value: T)

}
