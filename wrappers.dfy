/** The optional value used for JavaScript's `undefined`, for instance
    `players[i]` out of range or a variable not yet assigned. */
module Wrappers {

  datatype Option<+T> = None | Some(value: T)

}
