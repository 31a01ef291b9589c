/** Small failure-compatible wrappers shared by the other modules. */
module Wrappers {

  /** An optional value. In this model `None` stands for JavaScript's
      `undefined`, or for a nullable field that holds `null`. */
  datatype Option<+T> = None | Some(value: T)
}
