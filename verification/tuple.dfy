/** Tuple: a fixed-arity product of 1 to 10 slots. An arity is selected once,
    giving a constructor that accepts exactly that many values; every
    operation returns a new Tuple (or, for `merge` and `project`, a plain
    value) and fails with a type error on a value-dependent mismatch. */
module Tuples {
  import opened Values

  const MinArity: int := 1
  const MaxArity: int := 10

  /** The type errors the Tuple operations raise. */
  datatype TupleError =
    | InvalidSize                                       // arity outside 1..10
    | WrongValueCount(expected: nat, got: nat)          // constructor given too few or too many values
    | FunctionCountMismatch(expected: nat, got: nat)    // mapAll given the wrong number of functions
    | IndexOutOfRange                                   // project index not an integer in 1..n
    | LengthMismatch                                    // concat with a Tuple of another arity
    | SlotsNotCombinable                                // concat slot pair not same-type semigroups

  datatype Result<+T> = Ok(value: T) | Err(error: TupleError)

  /** An arity the family accepts; selecting one yields that constructor. */
  type Arity = n: int | MinArity <= n <= MaxArity witness MinArity

  /** An `n-Tuple`: the arity it was built with and its slots, in order. */
  datatype Tuple = Tuple(n: Arity, parts: seq<Value>) {
    predicate Valid() {
      |parts| == n
    }
  }

  /** Selecting the constructor for arity `n`. */
  function SelectArity(n: int): (r: Result<Arity>)
    ensures r.Ok? <==> MinArity <= n <= MaxArity
    ensures r.Ok? ==> r.value == n
    ensures r.Err? ==> r.error == InvalidSize
  {
    if MinArity <= n <= MaxArity then Ok(n) else Err(InvalidSize)
  }

  /** Calling the `a`-ary constructor with `values`. */
  function Construct(a: Arity, values: seq<Value>): (r: Result<Tuple>)
    ensures r.Ok? <==> |values| == a
    ensures r.Ok? ==> r.value.Valid() && r.value.n == a && ToArray(r.value) == values
    ensures r.Err? ==> r.error == WrongValueCount(a, |values|)
  {
    if |values| == a then Ok(Tuple(a, values)) else Err(WrongValueCount(a, |values|))
  }

  /** Selecting arity `n` and then calling that constructor with `values`. */
  function Build(n: int, values: seq<Value>): (r: Result<Tuple>)
    ensures r.Ok? <==> MinArity <= n <= MaxArity && |values| == n
    ensures !(MinArity <= n <= MaxArity) ==> r == Err(InvalidSize)
    ensures MinArity <= n <= MaxArity && |values| != n ==> r == Err(WrongValueCount(n, |values|))
    ensures r.Ok? ==> r.value.Valid() && r.value.n == n && ToArray(r.value) == values
  {
    match SelectArity(n)
    case Err(e) => Err(e)
    case Ok(a) => Construct(a, values)
  }

  /** `toArray()`: the slots, in order. */
  function ToArray(t: Tuple): (r: seq<Value>)
    requires t.Valid()
    ensures |r| == t.n
    ensures forall i :: 0 <= i < |r| ==> Project(t, (i + 1) as real) == Ok(r[i])
  {
    t.parts
  }

  /** `isInteger` on a JavaScript number: no fractional part. */
  predicate IsInteger(x: real) {
    x.Floor as real == x
  }

  /** `project(i)`: the i-th slot, counting from 1. */
  function Project(t: Tuple, index: real): (r: Result<Value>)
    requires t.Valid()
    ensures r.Ok? <==> IsInteger(index) && 1 <= index.Floor <= t.n
    ensures r.Ok? ==> r.value == t.parts[index.Floor - 1]
    ensures r.Err? ==> r.error == IndexOutOfRange
  {
    if !IsInteger(index) || index < 1.0 || index > t.n as real then
      Err(IndexOutOfRange)
    else
      Ok(t.parts[index.Floor - 1])
  }

  /** `map(f)`: rewrites the last slot only. The source registers `map` as
      the fantasy-land map and lists it among the interfaces it implements
      (src/Tuple/index.js:144, 154), which commits it to the Functor laws
      proved below; `MapAsWritten` is the code as written, which breaks them. */
  function Map(t: Tuple, f: Value -> Value): (r: Tuple)
    requires t.Valid()
    ensures r.Valid() && r.n == t.n
    ensures forall i :: 0 <= i < t.n - 1 ==> r.parts[i] == t.parts[i]
    ensures r.parts[t.n - 1] == f(t.parts[t.n - 1])
  {
    Tuple(t.n, t.parts[..t.n - 1] + [f(t.parts[t.n - 1])])
  }

  /** The last slot as `Array.prototype.concat` contributes it: an array
      result is spread into its elements, any other value is one element. */
  function Spread(v: Value): (r: seq<Value>)
    ensures !v.Arr? ==> r == [v]
    ensures v.Arr? ==> r == v.items
  {
    if v.Arr? then v.items else [v]
  }

  /** `map(f)` as written: the first n-1 slots, then `f(last)` appended with
      `Array.prototype.concat`, rebuilt through the n-ary constructor. */
  function MapAsWritten(t: Tuple, f: Value -> Value): (r: Result<Tuple>)
    requires t.Valid()
    ensures var out := f(t.parts[t.n - 1]);
      r.Ok? <==> !out.Arr? || |out.items| == 1
    ensures var out := f(t.parts[t.n - 1]);
      !out.Arr? ==> r == Ok(Map(t, f))
    ensures var out := f(t.parts[t.n - 1]);
      out.Arr? && |out.items| == 1 ==>
        && r.Ok? && r.value.Valid() && r.value.n == t.n && r.value.parts[t.n - 1] == out.items[0]
        && forall i :: 0 <= i < t.n - 1 ==> r.value.parts[i] == t.parts[i]
    ensures var out := f(t.parts[t.n - 1]);
      r.Err? ==> out.Arr? && r.error == WrongValueCount(t.n, t.n - 1 + |out.items|)
  {
    Construct(t.n, t.parts[..t.n - 1] + Spread(f(t.parts[t.n - 1])))
  }

  /** `mapAll(f1, ..., fn)`: slot i rewritten by the i-th function. */
  function MapAll(t: Tuple, fs: seq<Value -> Value>): (r: Result<Tuple>)
    requires t.Valid()
    ensures r.Ok? <==> |fs| == t.n
    ensures r.Err? ==> r.error == FunctionCountMismatch(t.n, |fs|)
    ensures r.Ok? ==> r.value.Valid() && r.value.n == t.n
    ensures r.Ok? ==> forall i :: 0 <= i < t.n ==> r.value.parts[i] == fs[i](t.parts[i])
  {
    if |fs| != |t.parts| then
      Err(FunctionCountMismatch(t.n, |fs|))
    else
      Construct(t.n, seq(|t.parts|, i requires 0 <= i < |t.parts| => fs[i](t.parts[i])))
  }

  /** Slot-wise concat of two equally long slot lists, receiver on the left;
      fails at the first pair that is not two semigroups of one type. */
  function ConcatSlots(a: seq<Value>, b: seq<Value>): (r: Result<seq<Value>>)
    requires |a| == |b|
    ensures r.Ok? <==> forall i :: 0 <= i < |a| ==> Combinable(a[i], b[i])
    ensures r.Err? ==> r.error == SlotsNotCombinable
    ensures r.Ok? ==> |r.value| == |a|
    ensures r.Ok? ==> forall i :: 0 <= i < |a| ==> Combinable(a[i], b[i]) && r.value[i] == Values.Concat(a[i], b[i])
    decreases |a|
  {
    if |a| == 0 then
      Ok([])
    else if !Combinable(a[0], b[0]) then
      Err(SlotsNotCombinable)
    else
      match ConcatSlots(a[1..], b[1..])
      case Err(e) => Err(e)
      case Ok(rest) => Ok([Values.Concat(a[0], b[0])] + rest)
  }

  /** `concat(t)`: both Tuples must have the same arity, and every slot pair
      must be two semigroups of one type. */
  function Concat(t: Tuple, o: Tuple): (r: Result<Tuple>)
    requires t.Valid() && o.Valid()
    ensures r.Ok? <==> t.n == o.n && forall i :: 0 <= i < t.n ==> Combinable(t.parts[i], o.parts[i])
    ensures t.n != o.n ==> r == Err(LengthMismatch)
    ensures t.n == o.n && r.Err? ==> r.error == SlotsNotCombinable
    ensures r.Ok? ==> r.value.Valid() && r.value.n == t.n
    ensures r.Ok? ==> forall i :: 0 <= i < t.n ==> r.value.parts[i] == Values.Concat(t.parts[i], o.parts[i])
  {
    if t.n != o.n then
      Err(LengthMismatch)
    else
      match ConcatSlots(t.parts, o.parts)
      case Err(e) => Err(e)
      case Ok(slots) => Construct(t.n, slots)
  }

  /** `merge(f)`: `f` applied to the slots spread as positional arguments;
      the result leaves the Tuple. */
  function Merge<R>(t: Tuple, f: seq<Value> -> R): (r: R)
    requires t.Valid()
    ensures r == f(ToArray(t))
  {
    f(t.parts)
  }

  /** `equals(m)`: same `n-Tuple` type and element-wise equal slots. */
  function Equals(t: Tuple, o: Tuple): (r: bool)
    ensures r <==> t == o
  {
    t.n == o.n && t.parts == o.parts
  }

  // ----- Properties -----

  lemma ToArrayConstructRoundTrip(t: Tuple)
    requires t.Valid()
    ensures Construct(t.n, ToArray(t)) == Ok(t)
  {
  }

  /** Building an n-Tuple from n values and projecting slot i gives back the
      i-th value unchanged. */
  lemma ProjectAfterBuild(n: int, values: seq<Value>, i: int)
    requires MinArity <= n <= MaxArity && |values| == n && 1 <= i <= n
    ensures Build(n, values).Ok?
    ensures Project(Build(n, values).value, i as real) == Ok(values[i - 1])
  {
  }

  lemma MergeSeesSlotsInOrder(t: Tuple, i: int)
    requires t.Valid() && 1 <= i <= t.n
    ensures Merge(t, ps => if |ps| >= i then ps[i - 1] else Num(0)) == Project(t, i as real).value
  {
  }

  lemma MapIdentity(t: Tuple)
    requires t.Valid()
    ensures Map(t, v => v) == t
  {
  }

  lemma MapComposition(t: Tuple, f: Value -> Value, g: Value -> Value)
    requires t.Valid()
    ensures Map(Map(t, f), g) == Map(t, v => g(f(v)))
  {
  }

  /** `map(f)` is `mapAll` with the identity on every slot but the last. */
  lemma MapIsMapAllOnLastSlot(t: Tuple, f: Value -> Value)
    requires t.Valid()
    ensures MapAll(t, seq(t.n - 1, _ => (v: Value) => v) + [f]) == Ok(Map(t, f))
  {
    var fs := seq(t.n - 1, _ => (v: Value) => v) + [f];
    var r := MapAll(t, fs);
    assert r.value.parts == Map(t, f).parts;
  }

  lemma MapAllIdentity(t: Tuple)
    requires t.Valid()
    ensures MapAll(t, seq(t.n, _ => (v: Value) => v)) == Ok(t)
  {
    var r := MapAll(t, seq(t.n, _ => (v: Value) => v));
    assert r.value.parts == t.parts;
  }

  lemma EqualsReflexiveSymmetric(t: Tuple, o: Tuple)
    ensures Equals(t, t)
    ensures Equals(t, o) <==> Equals(o, t)
  {
  }

  /** Tuples of same-type semigroups form a semigroup themselves. */
  lemma ConcatAssociative(a: Tuple, b: Tuple, c: Tuple)
    requires a.Valid() && b.Valid() && c.Valid()
    requires Concat(a, b).Ok? && Concat(b, c).Ok?
    ensures Concat(Concat(a, b).value, c).Ok?
    ensures Concat(a, Concat(b, c).value).Ok?
    ensures Concat(Concat(a, b).value, c) == Concat(a, Concat(b, c).value)
  {
    var ab := Concat(a, b).value;
    var bc := Concat(b, c).value;
    forall i | 0 <= i < a.n
      ensures Combinable(ab.parts[i], c.parts[i]) && Combinable(a.parts[i], bc.parts[i])
      ensures Values.Concat(ab.parts[i], c.parts[i]) == Values.Concat(a.parts[i], bc.parts[i])
    {
      Values.ConcatAssociative(a.parts[i], b.parts[i], c.parts[i]);
    }
    assert Concat(ab, c).value.parts == Concat(a, bc).value.parts;
  }

  /** The as-written `map` breaks the Functor identity law: mapping the
      identity over a Tuple whose last slot is a one-element array unwraps
      that array, and over an empty array it loses the slot altogether. */
  lemma MapAsWrittenBreaksIdentity()
    ensures var t := Tuple(2, [Num(1), Arr([Num(2)])]);
      MapAsWritten(t, v => v) == Ok(Tuple(2, [Num(1), Num(2)])) && MapAsWritten(t, v => v) != Ok(t)
    ensures MapAsWritten(Tuple(1, [Arr([])]), v => v) == Err(WrongValueCount(1, 0))
  {
    var t := Tuple(2, [Num(1), Arr([Num(2)])]);
    assert t.parts[..1] + Spread(Arr([Num(2)])) == [Num(1), Num(2)];
  }
}
