/** The JavaScript values a Tuple slot can hold, reduced to the kinds whose
    behaviour the Tuple container depends on: whether a value is a semigroup
    (has `concat`), which nominal type it has, and whether it is an array
    (which `Array.prototype.concat` spreads). */
module Values {

  datatype Value =
    | Num(n: int)
    | Bool(b: bool)
    | Str(s: string)
    | Arr(items: seq<Value>)

  /** The nominal type name a same-type check compares. */
  function TypeName(v: Value): string {
    match v
    case Num(_) => "Number"
    case Bool(_) => "Boolean"
    case Str(_) => "String"
    case Arr(_) => "Array"
  }

  predicate SameType(a: Value, b: Value) {
    TypeName(a) == TypeName(b)
  }

  /** Strings and arrays expose `concat`; numbers and booleans do not. */
  predicate IsSemigroup(v: Value) {
    v.Str? || v.Arr?
  }

  /** Two slot values a Tuple may combine: both semigroups, of one type. */
  predicate Combinable(a: Value, b: Value) {
    IsSemigroup(a) && IsSemigroup(b) && SameType(a, b)
  }

  /** The number of characters of a string or elements of an array. */
  function Length(v: Value): nat
    requires IsSemigroup(v)
  {
    if v.Str? then |v.s| else |v.items|
  }

  /** `a.concat(b)`: the receiver's contents first, then the argument's. */
  function Concat(a: Value, b: Value): (r: Value)
    requires Combinable(a, b)
    ensures SameType(r, a) && IsSemigroup(r)
    ensures Length(r) == Length(a) + Length(b)
    ensures a.Str? ==> r.s[..|a.s|] == a.s && r.s[|a.s|..] == b.s
    ensures a.Arr? ==> r.items[..|a.items|] == a.items && r.items[|a.items|..] == b.items
  {
    if a.Str? then Str(a.s + b.s) else Arr(a.items + b.items)
  }

  /** The semigroup law for the two built-in semigroups. */
  lemma ConcatAssociative(a: Value, b: Value, c: Value)
    requires Combinable(a, b) && Combinable(b, c)
    ensures Combinable(Concat(a, b), c) && Combinable(a, Concat(b, c))
    ensures Concat(Concat(a, b), c) == Concat(a, Concat(b, c))
  {
  }
}
