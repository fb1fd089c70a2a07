/** The optional-value datatype used for the persisted credential record and
    for the outcome of a refresh exchange. */
module Wrappers {

  datatype Option<+T> = None | Some(value: T)
}
