/** The optional-value wrapper shared by the client and the server models. */
module Wrappers {

  /** A JavaScript value that may be null or undefined. */
  datatype Option<T> = None | Some(value: T)
}
