/** Optional values and the JavaScript truthiness rules the routes rely on
    when they write `x || fallback`. */
module Wrappers {

  datatype Option<+T> = None | Some(value: T) {
    function GetOr(default: T): T {
      match this
      case Some(v) => v
      case None => default
    }
  }

  /** A request or environment string field: `None` when it is absent. */
  type Field = Option<string>

  /** JavaScript truthiness of an optional string: absent and "" are falsy. */
  predicate Truthy(f: Field) {
    f.Some? && f.value != ""
  }

  /** `f || fallback` for an optional string. */
  function OrElse(f: Field, fallback: string): (r: string)
    ensures Truthy(f) ==> r == f.value
    ensures !Truthy(f) ==> r == fallback
  {
    if Truthy(f) then f.value else fallback
  }

  /** `n || 0` for an optional number: absent and 0 both give 0. */
  function OrZero(n: Option<int>): (r: int)
    ensures n.Some? ==> r == n.value
    ensures n.None? ==> r == 0
  {
    n.GetOr(0)
  }
}
