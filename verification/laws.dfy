/**
 Laws that relate the optional's operations to one another: constructors and
 `get` round-trip, the fallbacks agree with `get`, `map` is `flatMap` through
 `ofNullable`, and no operation can tell a `null` slot from an `undefined` one.
 */
module OptionalLaws {
  import opened Slots
  import opened Effects
  import opened Optionals

  /** Observational equivalence: `get()` answers the same on both. */
  ghost predicate Same<T>(a: Optional<T>, b: Optional<T>) {
    Get(a) == Get(b)
  }

  // ----- Construction and inspection -----

  /** `of` then `get` returns the value for every value that is not absent. */
  lemma OfGetRoundTrip<T>(v: T)
    ensures Of(Val(v)).Ok?
    ensures IsPresent(Of(Val(v)).value) && !IsEmpty(Of(Val(v)).value)
    ensures Get(Of(Val(v)).value) == Ok(v)
  {}

  /** `of` refuses both markers of absence with the same error. */
  lemma OfRejectsAbsent<T>()
    ensures Of<T>(Null) == Err(NotDefined)
    ensures Of<T>(Undefined) == Err(NotDefined)
  {}

  /** `of` and `ofNullable` build the same optional whenever `of` succeeds, and
      `ofNullable` is empty exactly where `of` throws. */
  lemma OfNullableAgreesWithOf<T>(x: Slot<T>)
    ensures Of(x).Ok? ==> Of(x).value == OfNullable(x)
    ensures Of(x).Err? <==> IsEmpty(OfNullable(x))
  {}

  /** Taking the value out with `get` and wrapping it again with `ofNullable`
      gives back an equivalent optional, and the very same one when present. */
  lemma GetOfNullableRoundTrip<T>(o: Optional<T>)
    ensures var back := OfNullable(match Get(o) case Ok(v) => Val(v) case Err(_) => Null);
      Same(back, o) && (IsPresent(o) ==> back == o)
  {}

  /** `isPresent()` is always the negation of `isEmpty()`. */
  lemma PresentIsNotEmpty<T>(o: Optional<T>)
    ensures IsPresent(o) <==> !IsEmpty(o)
  {}

  // ----- null versus undefined -----

  /** `empty()` and `ofNullable(undefined)` store different markers but are equivalent. */
  lemma NullAndUndefinedAreSame<T>()
    ensures Empty<T>() == OfNullable(Null)
    ensures OfNullable<T>(Undefined) != Empty()
    ensures Same(Empty<T>(), OfNullable(Undefined))
  {}

  /** Equivalent optionals are indistinguishable: every operation, given the same
      callbacks, returns the same result and invokes the same callbacks. */
  lemma SameIsIndistinguishable<T, U>(a: Optional<T>, b: Optional<T>,
                                      p: T -> bool, f: T -> Slot<U>, g: T -> Optional<U>,
                                      other: U, supply: () -> U, fail: () -> Error,
                                      alternative: () -> Optional<T>)
    requires Same(a, b)
    ensures IsEmpty(a) == IsEmpty(b) && IsPresent(a) == IsPresent(b)
    ensures IfPresent(a) == IfPresent(b) && IfPresentOrElse(a) == IfPresentOrElse(b)
    ensures Filter(a, p) == Filter(b, p)
    ensures Map(a, f) == Map(b, f) && FlatMap(a, g) == FlatMap(b, g)
    ensures OrElse(a, other) == OrElse(b, other) && OrElseGet(a, supply) == OrElseGet(b, supply)
    ensures OrElseThrow(a, fail) == OrElseThrow(b, fail)
    ensures Or(a, alternative) == Or(b, alternative)
    ensures ThrowIfEmpty(a, fail) == ThrowIfEmpty(b, fail)
  {}

  // ----- Callback branching -----

  /** `ifPresentOrElse` runs what `ifPresent` runs when present, and the empty
      action alone otherwise. */
  lemma IfPresentOrElseExtendsIfPresent<T>(o: Optional<T>)
    ensures IsPresent(o) ==> IfPresentOrElse(o) == IfPresent(o)
    ensures IsEmpty(o) ==> IfPresentOrElse(o) == IfPresent(o) + [Nullary]
  {}

  // ----- Transformations -----

  /** Filtering twice with the same predicate is filtering once. */
  lemma FilterIdempotent<T>(o: Optional<T>, p: T -> bool)
    ensures Filter(Filter(o, p).result, p).result == Filter(o, p).result
  {}

  /** Two filters in a row keep what the conjunction of their predicates keeps. */
  lemma FilterFusion<T>(o: Optional<T>, p: T -> bool, q: T -> bool)
    ensures Filter(Filter(o, p).result, q).result == Filter(o, x => p(x) && q(x)).result
  {}

  /** `map(f)` is `flatMap` of `ofNullable` after `f`, callbacks included. */
  lemma MapIsFlatMapOfNullable<T, U>(o: Optional<T>, f: T -> Slot<U>)
    ensures Map(o, f) == FlatMap(o, x => OfNullable(f(x)))
  {}

  /** Two maps in a row are one map whose mapper stops at an absent intermediate. */
  lemma MapFusion<T, U, V>(o: Optional<T>, f: T -> Slot<U>, g: U -> Slot<V>)
    ensures Map(Map(o, f).result, g).result
         == Map(o, x => if f(x).Val? then g(f(x).v) else Null).result
  {}

  /** `flatMap` on a freshly wrapped value is the mapper applied to it. */
  lemma FlatMapLeftIdentity<T, U>(v: T, f: T -> Optional<U>)
    ensures FlatMap(OfNullable(Val(v)), f).result == f(v)
  {}

  /** `flatMap` with `ofNullable` as the mapper gives back an equivalent optional. */
  lemma FlatMapRightIdentity<T>(o: Optional<T>)
    ensures Same(FlatMap(o, x => OfNullable(Val(x))).result, o)
  {}

  /** Nested `flatMap`s may be regrouped. */
  lemma FlatMapAssociative<T, U, V>(o: Optional<T>, f: T -> Optional<U>, g: U -> Optional<V>)
    ensures FlatMap(FlatMap(o, f).result, g).result == FlatMap(o, x => FlatMap(f(x), g).result).result
  {}

  // ----- Fallbacks -----

  /** `orElseGet` with a constant supplier returns what `orElse` returns. */
  lemma OrElseGetIsLazyOrElse<T, U>(o: Optional<T>, other: U)
    ensures OrElseGet(o, () => other).result == OrElse(o, other)
  {}

  /** `get()` is `orElseThrow` with the "Optional is empty" error. */
  lemma GetIsOrElseThrow<T>(o: Optional<T>)
    ensures OrElseThrow(o, () => EmptyOptional).result == Get(o)
  {}

  /** `throwIfEmpty(s).get()` is `orElseThrow(s)`, with the same supplier calls. */
  lemma ThrowIfEmptyThenGet<T>(o: Optional<T>, s: () -> Error)
    ensures var r := ThrowIfEmpty(o, s);
      && r.calls == OrElseThrow(o, s).calls
      && (match r.result
          case Ok(kept) => OrElseThrow(o, s).result == Get(kept)
          case Err(e) => OrElseThrow(o, s).result == Err(e))
  {}

  /** `or` is present exactly when the receiver or the supplied alternative is. */
  lemma OrPresence<T>(o: Optional<T>, s: () -> Optional<T>)
    ensures IsPresent(Or(o, s).result) <==> IsPresent(o) || IsPresent(s())
    ensures Same(Or(o, () => Empty()).result, o)
  {}

  // ----- Scenarios exercised by the test suite -----

  /** Concrete cases from the tests. */
  lemma TestScenarios()
    ensures Get(Of(Val("test")).value) == Ok("test") && Get(OfNullable(Val("test"))) == Ok("test")
    ensures IsEmpty(Empty<int>()) && IsEmpty(OfNullable<int>(Null)) && Get(OfNullable<int>(Null)).Err?
    ensures IsPresent(Filter(OfNullable(Val("a")), x => x == "a").result)
    ensures IsEmpty(Filter(OfNullable(Val("a")), x => x != "a").result)
    ensures Get(Map(OfNullable(Val(1)), x => Val(x + 1)).result) == Ok(2)
    ensures IsEmpty(Map(Filter(OfNullable(Val(1)), x => x > 10).result, x => Val(x + 1)).result)
    ensures Get(FlatMap(OfNullable(Val(1)), x => Of(Val(x + 1)).value).result) == Ok(2)
    ensures IsEmpty(FlatMap(Filter(OfNullable(Val(1)), x => x > 10).result, x => Of(Val(x + 1)).value).result)
    ensures OrElse(Empty<string>(), "a") == Right("a") && OrElse(Of(Val("a")).value, 1) == Left("a")
    ensures OrElseGet(Empty<string>(), () => "a").result == Right("a")
    ensures OrElseGet(Of(Val("a")).value, () => 1).result == Left("a")
    ensures OrElseThrow(Empty<int>(), () => Error("")).result.Err?
    ensures OrElseThrow(OfNullable(Val(1)), () => Error("")).result == Ok(1)
    ensures Get(Or(Empty(), () => Of(Val(1)).value).result) == Ok(1)
    ensures Get(Or(Of(Val(1)).value, () => Of(Val(2)).value).result) == Ok(1)
  {}
}
