/** The usual optional-value wrapper. */
module Wrappers {

  /** `None` stands for a JavaScript `undefined` result. */
  datatype Option<+T> = None | Some(value: T)
}
