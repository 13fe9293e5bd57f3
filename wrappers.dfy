/** The optional-value datatype used for exchange-rate quotes and parse results. */
module Wrappers {

  datatype Option<+T> = None | Some(value: T)
}
