/** The optional value used for PHP's nullable fields and for the adjuster's
    "list of adjustments or false" result. */
module Wrappers {

  datatype Option<+T> = None | Some(value: T)
}
