/** The optional value used for a pointer coordinate that may be missing and for a
    batch of network responses that may have failed. */
module Wrappers {

  datatype Option<+T> = None | Some(value: T)
}
