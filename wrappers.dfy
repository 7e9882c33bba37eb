/** Optional values, error results, and Python's `x or y` on an optional argument. */
module Wrappers {

  datatype Option<+T> = None | Some(value: T)

  /** A value, or the message of the `ValueError` the source raises instead. */
  datatype Result<+T> = Ok(value: T) | Err(message: string)

  /** Python truthiness of an optional argument: `None` and the type's empty value
      (`""`, `[]`, `0`) are falsy, everything else is truthy. */
  predicate Truthy<T(==)>(x: Option<T>, empty: T) {
    x.Some? && x.value != empty
  }

  /** Python's `x or y` where `x` is an optional argument whose empty value is `empty`:
      a truthy `x` is kept, anything else falls through to `y`. */
  function Or<T(==)>(x: Option<T>, empty: T, y: T): (r: T)
    ensures Truthy(x, empty) ==> Some(r) == x
    ensures !Truthy(x, empty) ==> r == y
  {
    if Truthy(x, empty) then x.value else y
  }
}
