/** The value-or-nothing type used where a JavaScript lookup can come back `undefined`
    or an operation can throw. */
module Wrappers {

  datatype Option<+T> = None | Some(value: T)

}
