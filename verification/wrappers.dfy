/** The optional value used wherever the source returns `undefined`, `-1` or `NaN`. */
module Wrappers {

  datatype Option<+T> = None | Some(value: T)
}
