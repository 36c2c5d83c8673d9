/** The optional value used for the component's nullable state (`playingId`) and for
    values that may be missing from the store. */
module Wrappers {

  datatype Option<+T> = None | Some(value: T)
}
