/** Small shared helpers: an optional value, standing for JavaScript's null/undefined
    and Python's None. */
module Wrappers {

  datatype Option<+T> = None | Some(value: T)

  /** JavaScript (and Python) truthiness of an optional string: a missing value and the
      empty string are falsy, every other string is truthy. */
  predicate Truthy(v: Option<string>) {
    v.Some? && v.value != ""
  }
}
