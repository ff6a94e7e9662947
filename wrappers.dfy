/** The "present or absent" wrapper used for every optional or nullable field. */
module Wrappers {

  /** `None` stands for a Java `null` or an empty `Optional`. */
  datatype Option<+T> = None | Some(value: T)
}
