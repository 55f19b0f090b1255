/** Absent values: `undefined`, `null` and missing optional parameters. */
module Options {
  datatype Option<+T> = None | Some(value: T)

  /** `x ?? fallback` on strings. */
  function TextOr(s: Option<string>, fallback: string): string {
    if s.Some? then s.value else fallback
  }

  /** JavaScript truthiness of an optional string: absent and empty are both falsy. */
  predicate Truthy(s: Option<string>) {
    s.Some? && s.value != ""
  }
}
