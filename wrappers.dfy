/** The optional value used for tier codes: the free tier has no code. */
module Wrappers {

  datatype Option<+T> = None | Some(value: T)
}
