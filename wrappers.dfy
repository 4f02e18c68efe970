/** Option, the value-or-absence type used throughout the model. */
module Wrappers {

  datatype Option<+T> = None | Some(value: T) {

    function GetOr(default: T): T {
      match this
      case Some(v) => v
      case None => default
    }
  }

  /** A JavaScript value read with `||`: absent and empty both fall back. */
  function OrElse(s: Option<string>, fallback: string): string
  {
    if s.Some? && s.value != "" then s.value else fallback
  }

  /** A request-body field expected to hold an array: absent, something else, or an array. */
  datatype JsonArray<+T> = Absent | NotAnArray | Items(items: seq<T>)
}
