/** The optional value used where a C function can hand back "nothing"
    (a NULL pointer, or an enum integer that names no enumerator). */
module Wrappers {

  datatype Option<+T> = None | Some(value: T)
}
