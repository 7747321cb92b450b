/** The optional value the application uses in place of JavaScript's `null`. */
module Wrappers {

  /** `None` stands for a `null` reference, `Some(v)` for a held value. */
  datatype Option<+T> = None | Some(value: T)
}
