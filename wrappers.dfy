/** The optional value the component uses for `T | null` state and for absent props. */
module Wrappers {
  datatype Option<+T> = None | Some(value: T)
}
