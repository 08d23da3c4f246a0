/** The optional value used throughout the model for "a regular-expression match or none",
    "parseInt gave a number or NaN" and "a field is present or undefined". */
module Wrappers {

  datatype Option<+T> = None | Some(value: T)
}
