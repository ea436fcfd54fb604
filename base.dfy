/** Value wrappers shared by every module, and the two JavaScript fallback
    operators the screens lean on: `a ?? b` (falls through only on a missing
    value) and `a || b` on strings (falls through on a missing or empty one). */
module Base {

  datatype Option<T> = None | Some(value: T)

  /** `a ?? b` */
  function Coalesce<T>(a: Option<T>, b: Option<T>): Option<T> {
    if a.Some? then a else b
  }

  /** JavaScript truthiness of an optional string. */
  predicate Truthy(a: Option<string>) {
    a.Some? && a.value != ""
  }

  /** `a || b` on optional strings. */
  function OrElse(a: Option<string>, b: Option<string>): Option<string> {
    if Truthy(a) then a else b
  }

  /** `a || "fallback"`: the value is always a string. */
  function OrDefault(a: Option<string>, fallback: string): string {
    if Truthy(a) then a.value else fallback
  }

  /** `a ?? ""` */
  function OrEmpty(a: Option<string>): string {
    if a.Some? then a.value else ""
  }
}
