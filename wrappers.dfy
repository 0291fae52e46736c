/** The Option type used for JavaScript values that may be null or undefined. */
module Wrappers {

  datatype Option<+T> = None | Some(value: T)

  /**
   * JavaScript truthiness of a value that is either a string or absent:
   * null, undefined and the empty string are falsy, every other string is truthy.
   */
  predicate Truthy(s: Option<string>)
  {
    s.Some? && s.value != ""
  }
}
