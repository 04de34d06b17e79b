/** The optional-value datatype the model uses for "absent", "nil" and "failed to decode". */
module Wrappers {

  datatype Option<+T> = None | Some(value: T)
}
