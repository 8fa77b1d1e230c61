/** The optional value used for a nullable field (`string | null`) and for the
    result of a lookup that may find nothing. */
module Wrappers {

  datatype Option<+T> = None | Some(value: T)

}
