/** Stock optional-value datatype, standing for Java's nullable references. */
module Wrappers {

  /** `None` models `null`; `Some(v)` a present reference. */
  datatype Option<+T> = None | Some(value: T)
}
