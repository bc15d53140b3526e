/** Optional values and the JavaScript truthiness rules the templates rely on. */
module Wrappers {

  /** An optional field: `undefined` in the source is `None`. */
  datatype Option<+T> = None | Some(value: T)

  /** JavaScript truthiness of an optional string: both `undefined` and `""`
      are falsy, so every `x && ...` in a template skips both. */
  predicate Present(o: Option<string>) {
    o.Some? && o.value != ""
  }

  /** `o || d` for an optional string `o` and a default string `d`. */
  function Or(o: Option<string>, d: string): string {
    if Present(o) then o.value else d
  }

  /** `a || b` for two optional strings. */
  function OrElse(a: Option<string>, b: Option<string>): Option<string> {
    if Present(a) then a else b
  }

  /** A boolean prop with a JavaScript default parameter (`flag = d`):
      the default replaces only `undefined`. */
  function FlagOr(o: Option<bool>, d: bool): bool {
    if o.Some? then o.value else d
  }
}
