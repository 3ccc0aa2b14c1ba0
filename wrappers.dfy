/** The optional value the routes get from `?.`, `||` defaults and missing fields. */
module Wrappers {
  datatype Option<+T> = None | Some(value: T)

  /** JavaScript truthiness of an optional string: present and not empty. */
  predicate Truthy(s: Option<string>)
  {
    s.Some? && s.value != ""
  }
}
