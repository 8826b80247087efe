# crocks containers: Tuple, Identity and Star in Dafny

A Dafny model of three immutable containers from the crocks functional-programming library:

- **Tuple** (`Tuples`, `tuple.dfy`) is a fixed-arity product of 1 to 10 slots. `SelectArity` picks the n-ary constructor, and `Construct` calls it with a list of values. Then come `map` (last slot only), `mapAll`, `concat`, `merge`, `project` (1-indexed), `toArray` and `equals`. Each type error the source throws for a value-dependent reason is an `Err` of `TupleError`: a bad arity, a wrong value count, a wrong function count, a bad index, an arity mismatch, or a slot pair that cannot be combined.
- **Identity** (`Identities`, `identity.dfy`) is the single-value monad with `of`, `value`, `equals`, `map`, `ap`, `chain`, `sequence` and `traverse`. The functor, applicative and monad laws are proved as lemmas.
- **Star** (`Stars`, `star.dfy`) is the profunctor that wraps `runWith: a -> M b`. Here the inner monad `M` is fixed to Identity. It provides `id`, `map`, `contramap`, `promap`, Kleisli `compose`, `first`, `second` and `both`. Two Stars are compared pointwise (`Equivalent`). Each operation's contract says what its computation returns for every input, and the category and profunctor laws are lemmas.

Three supporting modules:

- `Values` (`values.dfy`) is a restricted universe of JavaScript slot values: numbers, booleans, strings and arrays. It defines their type names, the semigroup test, and `concat`.
- `Pairs` (`pairs.dfy`) is the Pair that `first`, `second` and `both` work on.
- `Maybes` (`maybes.dfy`) is the applicative that Identity's `sequence` and `traverse` turn the container inside out into.

Runtime duck-type checks become Dafny typing: "function required", "must return an Identity", "Pair required" and "Monad required". Only the checks that depend on a value are modelled as failures: Tuple arity, value count, function count, project index, and concat compatibility.

Tuple `map` is modelled twice, because the code breaks the Functor laws that the source commits it to (see Findings). The source registers `map` as the fantasy-land map (src/Tuple/index.js:144) and lists `map` among the interfaces it implements (:154):
- `Tuples.MapAsWritten` is the code. It spreads an array result of `f` into the slots.
- `Tuples.Map` is the last-slot map that those laws require. The functor laws and the relation to `mapAll` are proved for it.
- The two agree whenever `f(last)` is not an array.

Identity `equals` is a separate modelling choice: the code compares with `===`, and the model uses Dafny's structural `==` (see Left out).

## Model

| member | source | states |
|---|---|---|
| Tuples.SelectArity | src/Tuple/index.js:20-37 | selecting an arity succeeds exactly for 1..10 and then yields that arity; every other n fails with the size error |
| Tuples.Construct | src/Tuple/index.js:40-45 | the n-ary constructor succeeds exactly when given n values; the Tuple it builds has arity n and its `toArray` is the given values; otherwise it fails with "expected n values, got k" |
| Tuples.Build | src/Tuple/index.js:20-45 | selecting arity n and then constructing succeeds iff 1 <= n <= 10 and exactly n values are given; an invalid n fails with the size error before any construction; a valid n with k != n values fails with the constructor's "expected n values, got k" |
| Tuples.ToArray | src/Tuple/index.js:134-136 | the result has n elements, and its element i is what `project(i+1)` returns, i.e. the slots in order |
| Tuples.Project | src/Tuple/index.js:124-132 | `project(i)` succeeds iff i is integral with 1 <= i <= n, and then returns slot i-1 (0-based); otherwise it fails with the index error |
| Tuples.ProjectAfterBuild | src/Tuple/index.js:124-132 | projecting slot i of a Tuple built from n values returns the i-th value unchanged |
| Tuples.ToArrayConstructRoundTrip | src/Tuple/index.js:134-136 | rebuilding a Tuple from its `toArray` with its own arity gives back the same Tuple |
| Tuples.Map | src/Tuple/index.js:53-63 | corrected `map(f)` keeps the arity and the first n-1 slots, and the last slot becomes f(last) |
| Tuples.Spread | src/Tuple/index.js:59-62 | what `Array.prototype.concat` appends for the mapped last slot: a non-array value as one element, an array as its elements |
| Tuples.MapAsWritten | src/Tuple/index.js:53-63 | `map(f)` as written succeeds iff f(last) is not an array or is a one-element array; a non-array result gives the corrected `map`; a one-element array puts its single element, not the array, into the last slot; an array of k != 1 elements fails with the constructor's "expected n values, got n-1+k" |
| Tuples.MapAsWrittenBreaksIdentity | src/Tuple/index.js:59-62 | as written, mapping the identity over (1, [2]) gives (1, 2), not the original Tuple, and over ([]) fails with a value-count error |
| Tuples.MapIdentity | src/Tuple/index.js:53-63 | functor identity law for the corrected `map` |
| Tuples.MapComposition | src/Tuple/index.js:53-63 | functor composition law for the corrected `map` |
| Tuples.MapIsMapAllOnLastSlot | src/Tuple/index.js:53-63 | `map(f)` equals `mapAll` with the identity on the first n-1 slots and f on the last |
| Tuples.MapAll | src/Tuple/index.js:104-122 | `mapAll` succeeds iff exactly n functions are given, and then keeps the arity with slot i equal to f_i(slot i); otherwise it fails with "requires n functions" |
| Tuples.MapAllIdentity | src/Tuple/index.js:104-122 | `mapAll` with n identities gives back the Tuple |
| Tuples.ConcatSlots | src/Tuple/index.js:76-92 | slot-wise concat succeeds iff every slot pair is two semigroups of one type; result slot i is receiver[i].concat(other[i]) |
| Tuples.Concat | src/Tuple/index.js:70-94 | `concat` fails on an arity mismatch, then fails on an incompatible slot pair; it succeeds iff arities match and all pairs are compatible, and result slot i is this[i].concat(other[i]) with the receiver on the left |
| Tuples.ConcatAssociative | src/Tuple/index.js:70-94 | Tuple concat is associative wherever both groupings are defined |
| Tuples.Merge | src/Tuple/index.js:96-102 | `merge(f)` returns f applied to the slots as `toArray` lists them; the result is not a Tuple |
| Tuples.MergeSeesSlotsInOrder | src/Tuple/index.js:96-102 | `merge` sees the slots in positional order: merging with the function that selects argument i gives `project(i)` |
| Tuples.Equals | src/Tuple/index.js:66-68 | `equals` holds iff the arity and every slot are equal |
| Tuples.EqualsReflexiveSymmetric | src/Tuple/index.js:66-68 | Tuple `equals` is reflexive and symmetric |
| Values.Concat | src/Tuple/index.js:91 | concatenating two strings or two arrays keeps their type; the result starts with the receiver's contents and ends with the argument's |
| Values.ConcatAssociative | src/Tuple/index.js:91 | string and array concat is associative |
| Identities.Of | crocks/Identity.js:108-109 | `of(x)` is an Identity whose `value()` is x |
| Identities.Value | crocks/Identity.js:25-26 | `value()` returns the wrapped value: wrapping it again gives back the same Identity |
| Identities.Equals | crocks/Identity.js:34-35 | `equals(m)` holds iff m wraps an equal value |
| Identities.EqualsReflexiveSymmetric | crocks/Identity.js:34-35 | Identity `equals` is reflexive and symmetric |
| Identities.Map | crocks/Identity.js:40-46 | `map(f)` wraps f applied to the value |
| Identities.MapIdentity | crocks/Identity.js:40-46 | functor identity law: `map(id) == m` |
| Identities.MapComposition | crocks/Identity.js:40-46 | functor composition law: `map(f).map(g) == map(g . f)` |
| Identities.Ap | crocks/Identity.js:48-57 | `ap(m)` wraps the wrapped function applied to m's value |
| Identities.ApIdentity | crocks/Identity.js:48-57 | applicative identity law |
| Identities.ApHomomorphism | crocks/Identity.js:48-57 | applicative homomorphism law: `of(f).ap(of(x)) == of(f(x))` |
| Identities.ApInterchange | crocks/Identity.js:48-57 | applicative interchange law |
| Identities.Chain | crocks/Identity.js:59-71 | `chain(f)` is exactly the Identity f returns, not rewrapped |
| Identities.ChainLeftIdentity | crocks/Identity.js:59-71 | monad left identity: `of(x).chain(f) == f(x)` |
| Identities.ChainRightIdentity | crocks/Identity.js:59-71 | monad right identity: `m.chain(of) == m` |
| Identities.ChainAssociative | crocks/Identity.js:59-71 | monad associativity law |
| Identities.Sequence | crocks/Identity.js:73-82 | `sequence` yields a present result iff the wrapped applicative holds a value, and that result wraps the same value |
| Identities.Traverse | crocks/Identity.js:84-99 | `traverse(f)` yields a present result iff f(x) holds a value, and that result wraps f(x)'s value |
| Identities.TraverseIsSequenceOfMap | crocks/Identity.js:73-99 | `traverse(f)` equals `sequence` after `map(f)` |
| Stars.Id | src/Star/index.js:30-31 | `id()` returns its input unchanged inside the inner monad |
| Stars.Map | src/Star/index.js:85-101 | `map(f)` runs the computation and then applies f to its result, for every input |
| Stars.Contramap | src/Star/index.js:103-111 | `contramap(f)` on input x gives what the computation gives on f(x) |
| Stars.Promap | src/Star/index.js:113-129 | `promap(l, r)` on input x gives r applied to the computation's result on l(x) |
| Stars.PromapIsContramapThenMap | src/Star/index.js:113-129 | `promap(l, r)` is pointwise `contramap(l)` followed by `map(r)` |
| Stars.Compose | src/Star/index.js:59-83 | `compose(t)` feeds the first computation's result to t's computation, for every input |
| Stars.ComposeLeftIdentity | src/Star/index.js:30-31 | `id().compose(s)` is pointwise equal to s |
| Stars.ComposeRightIdentity | src/Star/index.js:59-83 | `s.compose(id())` is pointwise equal to s |
| Stars.ComposeAssociative | src/Star/index.js:59-83 | Kleisli composition is associative |
| Stars.MapIsComposeWithLift | src/Star/index.js:85-101 | `map(f)` equals composition with the Star that lifts f |
| Stars.MapIdentity | src/Star/index.js:85-101 | `map(id)` is pointwise equal to the Star |
| Stars.MapComposition | src/Star/index.js:85-101 | `map(f).map(g)` is pointwise `map(g . f)` |
| Stars.ContramapIdentity | src/Star/index.js:103-111 | `contramap(id)` is pointwise equal to the Star |
| Stars.ContramapComposition | src/Star/index.js:103-111 | `contramap(f).contramap(g)` is pointwise `contramap(f . g)` |
| Stars.First | src/Star/index.js:131-145 | on Pair(a, c), `first()` gives Pair(runWith(a)'s result, c); the second slot passes through unchanged |
| Stars.Second | src/Star/index.js:147-161 | on Pair(c, b), `second()` gives Pair(c, runWith(b)'s result); the first slot passes through unchanged |
| Stars.SequencePair | src/Star/index.js:176 | sequencing a Pair of inner-monad results with the monad's `ap` gives the monad of the Pair of their values |
| Pairs.Bimap | src/Star/index.js:169 | `bimap(f, g)` applies f to the first slot and g to the second |
| Stars.Both | src/Star/index.js:163-178 | on Pair(a, b), `both()` gives Pair(runWith(a)'s result, runWith(b)'s result) inside the inner monad |
| Stars.BothIsFirstThenSecond | src/Star/index.js:131-178 | with Identity inside, `both()` is pointwise `first()` composed with `second()` |

## Left out

- `inspect`/`toString`, `type()`, `@@type`, `VERSION` and `@@implements` are left out. They are diagnostic and registry strings with no computational content, and `core/inspect` and `core/types` are not part of this model.
- The fantasy-land aliases (`fl.*` keys) are left out. They are the same closures as the plain methods, so each operation is modelled once.
- The `isFunction` checks are discharged by typing, because every function argument has a Dafny function type. These are in Tuple `map`, `merge` and `mapAll`, in Identity `map`, `chain`, `sequence` and `traverse`, and in Star `map`, `contramap` and `promap` (src/Star/index.js:87, 105, 115).
- The remaining duck-type checks are also discharged by typing:
  - Identity's "must wrap something" and `ap`'s "wrapped value must be a function" and "Identity required".
  - `chain`'s "function must return an Identity" (crocks/Identity.js:64-68): `f` is declared to return an Identity.
  - `sequence`/`traverse`'s "must wrap an Applicative" and "must return an Applicative": the applicative is Maybe by type. The `af` argument of both serves only that check and the unmodelled polymorphism, so it is dropped.
  - Star's `isMonad` family check and its `runWith` function check.
  - Star's `isSameType` checks on `compose`'s argument and on each computation's result.
  - Star's "Pair required" check on `first`, `second` and `both` inputs.
- Star's polymorphism over an arbitrary inner monad is left out, because Dafny has no higher-kinded types. The inner monad is fixed to Identity, so `compose` cannot short-circuit.
- `both` delegates to `core/array` sequence, which is not part of this model. For Identity it is modelled by `SequencePair`, which uses the monad's own `ap`.
- Stars.Both: "runWith is applied exactly once per side" is not stated, because a pure model cannot observe how many calls were made. Only the Pair-level result is stated.
- Identities.Equals: uses Dafny's structural `==`, not the source's `===` (crocks/Identity.js:35). With `===`, two Identities wrapping distinct but equal arrays or objects are not equal, and `Identity(NaN)` is not equal to itself. The model's equality is reflexive and compares contents, because Dafny values have no reference identity and no NaN.
- Values: a Tuple slot in the source can hold any JavaScript value, including objects, functions, `null` and `undefined`. The model restricts slots to numbers, booleans, strings and arrays. Those are the kinds that decide the semigroup check, the same-type check and the array spreading in `map`.
- `core/equals`, `core/isSemigroup` and `core/isSameType` are not part of this model:
  - Tuple `equals` uses Dafny structural equality on `Value`.
  - Semigroups are strings and arrays, and same-type compares the four type names of `Value`. Other semigroup containers in the library are left out.
- JavaScript numbers are modelled as integers, and a `project` index as a `real`. Non-numeric index values (strings, objects) are excluded by typing rather than failing with the index error.
- Exceptions thrown by user-supplied functions are left out, because every function is total.
- `merge(f)` spreads the slots as positional arguments. This is modelled as `f` receiving the slot sequence.

## Findings

| source | as written | input that shows it | evidently intended | confidence | as-written member | corrected member |
|---|---|---|---|---|---|---|
| src/Tuple/index.js:59-62 | `map` appends `fn(last)` to the first n-1 slots with `Array.prototype.concat`, which spreads an array result into separate slots | `Tuple(2)(1, [2]).map(x => x)` gives the 2-Tuple (1, 2); `Tuple(1)([]).map(x => x)` throws "Expected 1 values, but got 0" | the last slot becomes `fn(last)` as a single value, so `map(x => x)` returns an equal Tuple: the Functor identity law that the fantasy-land `map` registration (src/Tuple/index.js:144) and the `@@implements` list (:154) commit it to | high; not executed | Tuples.MapAsWritten, Tuples.MapAsWrittenBreaksIdentity | Tuples.Map, Tuples.MapIdentity |
