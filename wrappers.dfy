/** Small failure-compatible wrapper shared by the modules of this model. */
module Wrappers {

  /** An optional value: `None` stands for JavaScript's `null` or `undefined` result. */
  datatype Option<+T> = None | Some(value: T)
}
