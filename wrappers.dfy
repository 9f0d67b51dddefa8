/** The optional-value datatype used for JavaScript's `undefined`-able values. */
module Wrappers {

  /** `None` stands for a value that is `undefined` (or a property that is absent). */
  datatype Option<+T> = None | Some(value: T)
}
