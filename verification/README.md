# Optional<T> in Dafny

A model of the TypeScript `Optional<T>` container (`src/index.ts`): an immutable
wrapper around one slot of type `T | null | undefined`. Only `null` and
`undefined` count as absent; `0`, `''` and `false` are present values.

Modules:

- `Slots` (`slots.dfy`): the raw slot `Null | Undefined | Val(v)` and the
  module-level nullish check `isEmpty`, here `Slots.IsNullish`.
- `Effects` (`effects.dfy`): how effects are represented. A `throw` becomes
  `Result.Err(Error(message))`. The union `U | T` returned by `orElse` and
  `orElseGet` becomes `Either` (`Left` is the optional's value, `Right` the
  fallback). Every operation that takes callbacks returns `Run(result, calls)`.
  `calls` lists the callback invocations in order: `Unary(arg)` for a
  one-argument callback (consumer, predicate, mapper, present action) and
  `Nullary` for a no-argument one (supplier, empty action).
- `Optionals` (`optional.dfy`): the `Optional` datatype and all sixteen
  operations of the class, each split on present or absent as the source does.
- `OptionalLaws` (`laws.dfy`): laws relating the operations. They cover the
  constructor/`get` round trips and the fallbacks versus `get`. They show `map`
  is `flatMap` through `ofNullable` and give the `flatMap` identity and
  associativity laws. They also show that no operation distinguishes the `null`
  slot that `empty()` stores from the `undefined` slot that
  `ofNullable(undefined)` stores.
- `Chains` (`chain.dfy`): chains of `filter`/`map`/`flatMap` calls, as the
  library is used. It proves that each callback runs at most once and that an
  emptied chain runs no later callback.

Callbacks are Dafny total function values. The consumers of `ifPresent` and
`ifPresentOrElse` return `void`, so they are not parameters: their only effect is
being invoked, which the returned trace records.

## Model

| member | source | states |
|---|---|---|
| Slots.IsNullish | src/index.ts:188-190 | a slot is absent exactly when it holds no value, i.e. it is `null` or `undefined` |
| Slots.FalsyValuesArePresent | src/index.ts:188-190 | `0`, `''` and `false` are not absent |
| Optionals.Empty | src/index.ts:16-18 | `empty()` is empty and its `get()` throws "Optional is empty" |
| Optionals.Of | src/index.ts:26-31 | `of(x)` succeeds exactly when `x` is not absent, and the result is present with `get()` returning `x`; otherwise it throws "value is not defined" |
| Optionals.OfNullable | src/index.ts:39-41 | `ofNullable(x)` is empty iff `x` is `null` or `undefined`, and otherwise `get()` returns `x` |
| Optionals.Get | src/index.ts:49-54 | `get()` succeeds exactly when a value is held and returns it; from either marker it throws "Optional is empty" |
| Optionals.IsEmpty | src/index.ts:66-68 | `isEmpty()` is true exactly when `get()` throws |
| Optionals.IsPresent | src/index.ts:59-61 | `isPresent()` is true exactly when `get()` returns a value |
| Optionals.IfPresent | src/index.ts:75-79 | the consumer runs exactly once, with the value, when present, and never when empty |
| Optionals.IfPresentOrElse | src/index.ts:87-93 | exactly one callback runs; it is the present action, given the value, iff the optional is present |
| Optionals.Filter | src/index.ts:101-103 | on empty: empty result, predicate not called; on present `v`: predicate called once with `v`, result present iff `p(v)`, and a kept result is the receiver itself |
| Optionals.Map | src/index.ts:111-113 | on empty: empty, mapper not called; on present `v`: mapper called once with `v`, result observes as `ofNullable(f(v))` |
| Optionals.FlatMap | src/index.ts:121-123 | on empty: empty, mapper not called; on present `v`: mapper called once with `v`, result is exactly `f(v)` |
| Optionals.OrElse | src/index.ts:131-133 | the held value when present, otherwise `other` unchanged |
| Optionals.OrElseGet | src/index.ts:141-143 | the held value without calling the supplier when present; otherwise the supplier's value, supplier called once |
| Optionals.OrElseThrow | src/index.ts:151-156 | returns normally iff present, with the held value and no supplier call; otherwise throws the supplier's error after one call |
| Optionals.Or | src/index.ts:164-166 | the receiver itself without a supplier call when present; otherwise the supplier's optional, supplier called once |
| Optionals.ThrowIfEmpty | src/index.ts:174-179 | returns the receiver itself iff present, without a supplier call; otherwise throws the supplier's error after one call |
| OptionalLaws.OfGetRoundTrip | src/index.test.ts:11-19 | for every value `v`, `of(v)` succeeds, is present, not empty, and `get()` returns `v` |
| OptionalLaws.OfRejectsAbsent | src/index.test.ts:21-23 | `of(null)` and `of(undefined)` both throw "value is not defined" |
| OptionalLaws.OfNullableAgreesWithOf | src/index.ts:26-41 | where `of` succeeds it builds what `ofNullable` builds; `ofNullable` is empty exactly where `of` throws |
| OptionalLaws.GetOfNullableRoundTrip | src/index.ts:39-54 | re-wrapping what `get()` yields gives back an equivalent optional, and the same optional when present |
| OptionalLaws.PresentIsNotEmpty | src/index.ts:59-68 | `isPresent()` is the negation of `isEmpty()` |
| OptionalLaws.NullAndUndefinedAreSame | src/index.ts:16-18 | `empty()` stores `null`, `ofNullable(undefined)` stores `undefined`, and `get()` answers the same on both |
| OptionalLaws.SameIsIndistinguishable | src/index.ts:49-179 | two optionals on which `get()` agrees give equal results and equal callback traces under every operation |
| OptionalLaws.IfPresentOrElseExtendsIfPresent | src/index.ts:75-93 | `ifPresentOrElse` runs what `ifPresent` runs when present, and only the empty action when empty |
| OptionalLaws.FilterIdempotent | src/index.ts:101-103 | filtering twice with one predicate equals filtering once |
| OptionalLaws.FilterFusion | src/index.ts:101-103 | two filters in a row equal one filter with the conjunction of the predicates |
| OptionalLaws.MapIsFlatMapOfNullable | src/index.ts:111-123 | `map(f)` equals `flatMap(x => ofNullable(f(x)))`, result and callback trace |
| OptionalLaws.MapFusion | src/index.ts:111-113 | two maps equal one map whose mapper yields `null` when the first mapper's result is absent |
| OptionalLaws.FlatMapLeftIdentity | src/index.ts:121-123 | `ofNullable(v).flatMap(f)` is `f(v)` |
| OptionalLaws.FlatMapRightIdentity | src/index.ts:121-123 | `o.flatMap(ofNullable)` is equivalent to `o` |
| OptionalLaws.FlatMapAssociative | src/index.ts:121-123 | nested `flatMap`s can be regrouped |
| OptionalLaws.OrElseGetIsLazyOrElse | src/index.ts:131-143 | `orElseGet` with a constant supplier returns what `orElse` returns |
| OptionalLaws.GetIsOrElseThrow | src/index.ts:49-54 | `get()` behaves as `orElseThrow` with the "Optional is empty" error |
| OptionalLaws.ThrowIfEmptyThenGet | src/index.ts:151-179 | `throwIfEmpty(s).get()` equals `orElseThrow(s)`, with the same supplier calls |
| OptionalLaws.OrPresence | src/index.ts:164-166 | `or(s)` is present iff the receiver or `s()` is; with an empty supplier it is equivalent to the receiver |
| OptionalLaws.TestScenarios | src/index.test.ts:11-161 | the concrete cases of the test suite: wrap and unwrap, filter keeps and drops, map, flat map, `orElse`, `orElseGet`, `orElseThrow` both ways, `or` both ways |
| Chains.Apply | src/index.ts:101-123 | a chain step's callback runs once with the value on a present optional and never on an empty one |
| Chains.Chain | src/index.test.ts:96-117 | a chain of steps invokes at most one callback per step; on a present start the first step's callback receives the held value; an empty start stays empty with no calls; a present end means every step ran |
| Chains.ChainAppend | src/index.ts:101-123 | running two chains one after the other equals running their concatenation, results and traces |
| Chains.EmptiedChainStaysEmpty | src/index.test.ts:96-117 | once a chain has emptied the optional, later steps invoke nothing and the result stays empty |
| Chains.FilterThenMapScenario | src/index.test.ts:96-102 | `ofNullable(1).filter(x => x > 10).map(x => x + 1)` is empty and calls only the predicate, with 1 |

## Left out

- `guard` and `orThrow`: the tests at src/index.test.ts:163-197 call them, but src/index.ts does not define them; neither is modelled.
- Errors: src/index.ts:28 and :51 throw a plain `Error` with the message "value is not defined" or "Optional is empty", modelled as `Error(message)`; stack traces and error classes are not modelled.
- Nested nullable payloads: TypeScript flattens `T | null | undefined`, so `of<number | null>(null)` throws and `ofNullable(null)` is empty at every `T`. Dafny's `Slot<T>` nests instead, so `T` stands for the non-nullish part of the source's type parameter; a Dafny `T` that itself holds `Slot` markers (e.g. `Val(Null)` in a `Slot<Slot<int>>`) has no TypeScript counterpart.
- Callbacks that throw: every callback is a total Dafny function. An exception escaping a predicate, mapper or supplier is not modelled.
- Object identity: "returns `this`" is modelled as returning the same datatype value. JavaScript reference identity and fresh instances are not modelled.
- Union types: `or` returns `Optional<T | U>`; it is modelled with `U = T`. `orElse`/`orElseGet` use the `Either` datatype instead of a structural union.
- The consumers of `ifPresent`/`ifPresentOrElse` are not parameters; their effects beyond being invoked (the test suite's Promise plumbing) are outside the model.
- Chains are over one payload type: a chain that changes the type from step to step is expressed with the individual `Map`/`FlatMap` functions instead.
- eslint.config.mjs is lint configuration with no behaviour, and is not part of this model.
