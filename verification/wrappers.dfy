/** The optional-value datatype used across the model: a JSON body field that
    may be absent, a lookup that may miss. */
module Wrappers {

  datatype Option<+T> = None | Some(value: T)
}
