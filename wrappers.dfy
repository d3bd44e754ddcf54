/** The option type shared by the modules of the flash relay model. */
module Wrappers {

  datatype Option<+T> = None | Some(value: T)
}
