/** The optional value of a JavaScript property or argument that may be absent. */
module Wrappers {

  /** `None` stands for `undefined`/`null` (an absent key or a missing argument). */
  datatype Option<+T> = None | Some(value: T)
}
