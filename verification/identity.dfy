/** Identity: the single-value container that is a Functor, an Applicative
    and a Monad with no effect of its own. Every operation either rewraps the
    value or hands it to a function; the laws below follow from that. */
module Identities {
  import opened Maybes

  datatype Identity<+T> = Identity(x: T)

  /** `Identity.of` is the constructor itself. */
  function Of<T>(x: T): (r: Identity<T>)
    ensures Value(r) == x
  {
    Identity(x)
  }

  /** `value()` returns what was wrapped, unchanged. */
  function Value<T>(m: Identity<T>): (r: T)
    ensures Identity(r) == m
  {
    m.x
  }

  /** `equals(m)`: the other container wraps an equal value. */
  function Equals<T(==)>(m: Identity<T>, o: Identity<T>): (r: bool)
    ensures r <==> m == o
  {
    Value(m) == Value(o)
  }

  function Map<A, B>(m: Identity<A>, f: A -> B): (r: Identity<B>)
    ensures Value(r) == f(Value(m))
  {
    Identity(f(m.x))
  }

  /** `ap(m)`: the wrapped function applied to the contents of `m`. */
  function Ap<A, B>(mf: Identity<A -> B>, m: Identity<A>): (r: Identity<B>)
    ensures Value(r) == Value(mf)(Value(m))
  {
    Map(m, mf.x)
  }

  /** `chain(f)`: the Identity `f` returns, not rewrapped. */
  function Chain<A, B>(m: Identity<A>, f: A -> Identity<B>): (r: Identity<B>)
    ensures r == f(Value(m))
  {
    f(m.x)
  }

  /** `sequence`: turns an Identity of a Maybe inside out, by mapping the
      Identity constructor over the inner applicative. */
  function Sequence<T>(m: Identity<Maybe<T>>): (r: Maybe<Identity<T>>)
    ensures r.Just? <==> Value(m).Just?
    ensures r.Just? ==> Value(r.value) == Value(m).value
  {
    Maybes.Map(m.x, Of)
  }

  /** `traverse(f)`: the applicative `f` returns, with its contents wrapped. */
  function Traverse<A, B>(m: Identity<A>, f: A -> Maybe<B>): (r: Maybe<Identity<B>>)
    ensures r.Just? <==> f(Value(m)).Just?
    ensures r.Just? ==> Value(r.value) == f(Value(m)).value
  {
    Maybes.Map(f(m.x), Of)
  }

  lemma EqualsReflexiveSymmetric<T>(m: Identity<T>, o: Identity<T>)
    ensures Equals(m, m)
    ensures Equals(m, o) <==> Equals(o, m)
  {
  }

  lemma MapIdentity<T>(m: Identity<T>)
    ensures Map(m, x => x) == m
  {
  }

  lemma MapComposition<A, B, C>(m: Identity<A>, f: A -> B, g: B -> C)
    ensures Map(Map(m, f), g) == Map(m, x => g(f(x)))
  {
  }

  lemma ApIdentity<T>(v: Identity<T>)
    ensures Ap(Of((x: T) => x), v) == v
  {
  }

  lemma ApHomomorphism<A, B>(f: A -> B, x: A)
    ensures Ap(Of(f), Of(x)) == Of(f(x))
  {
  }

  lemma ApInterchange<A, B>(u: Identity<A -> B>, y: A)
    ensures Ap(u, Of(y)) == Ap(Of((f: A -> B) => f(y)), u)
  {
  }

  lemma ChainLeftIdentity<A, B>(x: A, f: A -> Identity<B>)
    ensures Chain(Of(x), f) == f(x)
  {
  }

  lemma ChainRightIdentity<T>(m: Identity<T>)
    ensures Chain(m, Of) == m
  {
  }

  lemma ChainAssociative<A, B, C>(m: Identity<A>, f: A -> Identity<B>, g: B -> Identity<C>)
    ensures Chain(Chain(m, f), g) == Chain(m, x => Chain(f(x), g))
  {
  }

  /** `traverse(f)` is `sequence` after `map(f)`. */
  lemma TraverseIsSequenceOfMap<A, B>(m: Identity<A>, f: A -> Maybe<B>)
    ensures Traverse(m, f) == Sequence(Map(m, f))
  {
  }
}
