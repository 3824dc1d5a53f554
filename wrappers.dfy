/** The optional value used for every Python `None`-able result of the relay. */
module Wrappers {

  datatype Option<+T> = None | Some(value: T)
}
