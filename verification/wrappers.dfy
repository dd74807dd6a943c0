/** The optional value used for every OS answer that may be missing
    (a null pointer, a failed call, an absent map entry). */
module Wrappers {

  datatype Option<+T> = None | Some(value: T)
}
