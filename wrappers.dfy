/** The optional value shared by the server and the client models. */
module Wrappers {

  /** `None` stands for a JavaScript value that is undefined or null. */
  datatype Option<T> = None | Some(value: T)
}
