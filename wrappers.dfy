/** The optional-value datatype used for the dispatch decision. */
module Wrappers {

  datatype Option<+T> = None | Some(value: T)
}
