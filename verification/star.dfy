/** Star: a profunctor wrapping a computation `a -> M b`. The inner monad M
    is fixed to Identity, so a Star holds a total function into Identity.
    Two Stars are interchangeable when their computations agree on every
    input, which is the sense in which the laws below hold. */
module Stars {
  import opened Identities
  import opened Pairs

  datatype Star<!A, B> = Star(runWith: A -> Identity<B>)

  /** The two computations agree on every input. */
  ghost predicate Equivalent<A(!new), B>(s: Star<A, B>, t: Star<A, B>) {
    forall x :: s.runWith(x) == t.runWith(x)
  }

  /** `Star.id()`: the computation is the inner monad's `of`. */
  function Id<A(!new)>(): (r: Star<A, A>)
    ensures forall x :: Value(r.runWith(x)) == x
  {
    Star(Of)
  }

  /** `map(f)`: `f` applied after the computation, inside the inner monad. */
  function Map<A(!new), B, C>(s: Star<A, B>, f: B -> C): (r: Star<A, C>)
    ensures forall x :: Value(r.runWith(x)) == f(Value(s.runWith(x)))
  {
    Star(x => Identities.Map(s.runWith(x), f))
  }

  /** `contramap(f)`: `f` applied to the input before the computation. */
  function Contramap<A, B, C(!new)>(s: Star<A, B>, f: C -> A): (r: Star<C, B>)
    ensures forall x :: Value(r.runWith(x)) == Value(s.runWith(f(x)))
  {
    Star(x => s.runWith(f(x)))
  }

  /** `promap(l, r)`: `l` before the computation and `r` after it. */
  function Promap<A, B, C(!new), D>(s: Star<A, B>, l: C -> A, r: B -> D): (p: Star<C, D>)
    ensures forall x :: Value(p.runWith(x)) == r(Value(s.runWith(l(x))))
  {
    Star(x => Identities.Map(s.runWith(l(x)), r))
  }

  /** `compose(t)`: Kleisli composition, `t`'s computation chained onto the
      result of this one. */
  function Compose<A(!new), B, C>(s: Star<A, B>, t: Star<B, C>): (r: Star<A, C>)
    ensures forall x :: Value(r.runWith(x)) == Value(t.runWith(Value(s.runWith(x))))
  {
    Star(x => Chain(s.runWith(x), t.runWith))
  }

  /** `first()`: the computation on the first slot of a Pair; the second
      slot passes through unchanged. */
  function First<A(!new), B, C(!new)>(s: Star<A, B>): (r: Star<Pair<A, C>, Pair<B, C>>)
    ensures forall p :: Value(r.runWith(p)) == Pair(Value(s.runWith(p.fst)), p.snd)
  {
    Star((p: Pair<A, C>) => Identities.Map(s.runWith(p.fst), (l: B) => Pair(l, p.snd)))
  }

  /** `second()`: the computation on the second slot of a Pair; the first
      slot passes through unchanged. */
  function Second<A(!new), B, C(!new)>(s: Star<A, B>): (r: Star<Pair<C, A>, Pair<C, B>>)
    ensures forall p :: Value(r.runWith(p)) == Pair(p.fst, Value(s.runWith(p.snd)))
  {
    Star((p: Pair<C, A>) => Identities.Map(s.runWith(p.snd), (q: B) => Pair(p.fst, q)))
  }

  /** Sequencing two inner-monad results into one inner-monad Pair with the
      monad's applicative `ap`. */
  function SequencePair<B>(p: Pair<Identity<B>, Identity<B>>): (r: Identity<Pair<B, B>>)
    ensures Value(r) == Pair(Value(p.fst), Value(p.snd))
  {
    Ap(Identities.Map(p.fst, (a: B) => (b: B) => Pair(a, b)), p.snd)
  }

  /** `both()`: the computation on each slot of a Pair, the two results
      sequenced into one Pair inside the inner monad. */
  function Both<A(!new), B>(s: Star<A, B>): (r: Star<Pair<A, A>, Pair<B, B>>)
    ensures forall p :: Value(r.runWith(p)) == Pair(Value(s.runWith(p.fst)), Value(s.runWith(p.snd)))
  {
    Star((p: Pair<A, A>) => SequencePair(Bimap(p, s.runWith, s.runWith)))
  }

  // ----- Laws -----

  lemma MapIdentity<A(!new), B>(s: Star<A, B>)
    ensures Equivalent(Map(s, (y: B) => y), s)
  {
  }

  lemma MapComposition<A(!new), B, C, D>(s: Star<A, B>, f: B -> C, g: C -> D)
    ensures Equivalent(Map(Map(s, f), g), Map(s, (y: B) => g(f(y))))
  {
  }

  lemma ContramapIdentity<A(!new), B>(s: Star<A, B>)
    ensures Equivalent(Contramap(s, (x: A) => x), s)
  {
  }

  lemma ContramapComposition<A, B, C(!new), D(!new)>(s: Star<A, B>, f: C -> A, g: D -> C)
    ensures Equivalent(Contramap(Contramap(s, f), g), Contramap(s, (x: D) => f(g(x))))
  {
  }

  /** `promap(l, r)` is `contramap(l)` followed by `map(r)`. */
  lemma PromapIsContramapThenMap<A, B, C(!new), D>(s: Star<A, B>, l: C -> A, r: B -> D)
    ensures Equivalent(Promap(s, l, r), Map(Contramap(s, l), r))
  {
  }

  lemma ComposeLeftIdentity<A(!new), B>(s: Star<A, B>)
    ensures Equivalent(Compose(Id(), s), s)
  {
  }

  lemma ComposeRightIdentity<A(!new), B(!new)>(s: Star<A, B>)
    ensures Equivalent(Compose(s, Id()), s)
  {
  }

  lemma ComposeAssociative<A(!new), B(!new), C, D>(s: Star<A, B>, t: Star<B, C>, u: Star<C, D>)
    ensures Equivalent(Compose(Compose(s, t), u), Compose(s, Compose(t, u)))
  {
  }

  /** `map(f)` is composition with the Star that lifts `f`. */
  lemma MapIsComposeWithLift<A(!new), B, C>(s: Star<A, B>, f: B -> C)
    ensures Equivalent(Map(s, f), Compose(s, Star((y: B) => Of(f(y)))))
  {
  }

  /** With Identity as inner monad, running both sides at once is running
      the first side and then the second. */
  lemma BothIsFirstThenSecond<A(!new), B(!new)>(s: Star<A, B>)
    ensures Equivalent(Both(s), Compose(First<A, B, A>(s), Second<A, B, B>(s)))
  {
  }
}
