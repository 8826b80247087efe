/** An applicative that can fail, used as the target of Identity's
    `sequence` and `traverse`. */
module Maybes {

  datatype Maybe<+T> = Nothing | Just(value: T)

  function Map<T, U>(m: Maybe<T>, f: T -> U): (r: Maybe<U>)
    ensures r.Just? <==> m.Just?
    ensures r.Just? ==> r.value == f(m.value)
  {
    match m
    case Nothing => Nothing
    case Just(v) => Just(f(v))
  }
}
