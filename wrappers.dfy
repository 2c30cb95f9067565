/** The optional value used for the source's `T | undefined` fields and for
    `Array.prototype.find`. */
module Wrappers {

  datatype Option<T> = None | Some(value: T)
}
