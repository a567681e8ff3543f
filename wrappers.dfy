/** The conventional optional value, used where the source hands back a
    pointer that may be absent or a lookup that may find nothing. */
module Wrappers {

  datatype Option<+T> = None | Some(value: T)
}
