/** Optional values, as Python's `Optional[...]` and TypeScript's `?:` fields. */
module Wrappers {

  datatype Option<+T> = None | Some(value: T)

  /** Python/JavaScript truthiness of an optional string: present and not "". */
  predicate Truthy(s: Option<string>) {
    s.Some? && s.value != ""
  }
}
