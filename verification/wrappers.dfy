/** The optional-value datatype used for property lookups and missing arguments. */
module Wrappers {

  /** `None` stands for a missing (JavaScript `undefined`/`null`) value. */
  datatype Option<+T> = None | Some(value: T)
}
