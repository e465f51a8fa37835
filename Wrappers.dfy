/** Small optional-value wrapper, standing for the possibly-NULL arguments and handles of the source. */
module Wrappers {
  datatype Option<+T> = None | Some(value: T)
}
