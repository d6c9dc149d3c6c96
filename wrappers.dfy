/** Nullable references: `None` is C#'s `null`. */
module Wrappers {

  datatype Option<+T> = None | Some(value: T)

  /** `string.IsNullOrEmpty`. */
  predicate IsNullOrEmpty(s: Option<string>)
  {
    s.None? || s.value == ""
  }
}
