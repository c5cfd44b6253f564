/** The optional-value datatype used by the lookups and decoders of the model. */
module Wrappers {

  datatype Option<+T> = None | Some(value: T)
}
