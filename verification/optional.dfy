/**
 The `Optional<T>` container: an immutable wrapper around one slot that is
 either absent (`null` or `undefined`) or holds a value. Every operation splits
 on those two states; the ones that take callbacks also report which callbacks
 they invoked.
 */
module Optionals {
  import opened Slots
  import opened Effects

  /** The container; its only field is the private `value` slot. */
  datatype Optional<T> = Optional(slot: Slot<T>)

  // ----- Construction -----

  /** `Optional.empty()`: stores `null`. */
  function Empty<T>(): (r: Optional<T>)
    ensures IsEmpty(r)
    ensures Get(r) == Err(EmptyOptional)
  {
    Optional(Null)
  }

  /** `Optional.of(value)`: the only constructor that checks its argument. */
  function Of<T>(x: Slot<T>): (r: Result<Optional<T>>)
    ensures r.Ok? <==> x.Val?
    ensures r.Err? ==> r.error == NotDefined
    ensures r.Ok? ==> IsPresent(r.value) && Get(r.value) == Ok(x.v)
  {
    if Slots.IsNullish(x) then Err(NotDefined) else Ok(Optional(x))
  }

  /** `Optional.ofNullable(value)`: stores whatever it is given, `undefined` included. */
  function OfNullable<T>(x: Slot<T>): (r: Optional<T>)
    ensures IsEmpty(r) <==> (x == Null || x == Undefined)
    ensures x.Val? ==> Get(r) == Ok(x.v)
  {
    Optional(x)
  }

  // ----- Inspection -----

  /** `get()`: the wrapped value, or the "Optional is empty" error. */
  function Get<T>(o: Optional<T>): (r: Result<T>)
    ensures r.Ok? <==> o.slot.Val?
    ensures r.Ok? ==> o.slot == Val(r.value)
    ensures r.Err? ==> r.error == EmptyOptional
  {
    if o.slot.Null? || o.slot.Undefined? then Err(EmptyOptional) else Ok(o.slot.v)
  }

  /** `isEmpty()`: true exactly when `get()` would throw. */
  function IsEmpty<T>(o: Optional<T>): (b: bool)
    ensures b <==> Get(o).Err?
  {
    Slots.IsNullish(o.slot)
  }

  /** `isPresent()`: true exactly when `get()` returns a value. */
  function IsPresent<T>(o: Optional<T>): (b: bool)
    ensures b <==> Get(o).Ok?
  {
    !IsEmpty(o)
  }

  // ----- Callback branching -----

  /** `ifPresent(consumer)`: the consumer's invocations. It runs once, with the value,
      when one is present, and never otherwise. */
  function IfPresent<T>(o: Optional<T>): (calls: seq<Call<T>>)
    ensures IsEmpty(o) ==> calls == []
    ensures IsPresent(o) ==> calls == [Unary(Get(o).value)]
  {
    if Slots.IsNullish(o.slot) then [] else [Unary(o.slot.v)]
  }

  /** `ifPresentOrElse(presentAction, emptyAction)`: the invocations of the two
      callbacks; `Unary` is the present action, `Nullary` the empty action. */
  function IfPresentOrElse<T>(o: Optional<T>): (calls: seq<Call<T>>)
    ensures |calls| == 1
    ensures calls[0].Unary? <==> IsPresent(o)
    ensures calls[0].Unary? ==> Get(o) == Ok(calls[0].arg)
  {
    if !Slots.IsNullish(o.slot) then [Unary(o.slot.v)] else [Nullary]
  }

  // ----- Transformations -----

  /** `filter(predicate)`: keeps the receiver when its value passes the predicate;
      the predicate is not evaluated on an empty optional. */
  function Filter<T>(o: Optional<T>, p: T -> bool): (r: Run<Optional<T>, T>)
    ensures IsEmpty(o) ==> IsEmpty(r.result) && r.calls == []
    ensures IsPresent(o) ==> r.calls == [Unary(Get(o).value)]
    ensures IsPresent(o) ==> (IsPresent(r.result) <==> p(Get(o).value))
    ensures IsPresent(r.result) ==> r.result == o
  {
    if Slots.IsNullish(o.slot) then Run(Empty(), [])
    else Run(if p(o.slot.v) then o else Empty(), [Unary(o.slot.v)])
  }

  /** `map(mapper)`: the mapper's result, re-wrapped by `ofNullable`, so a `null`
      or `undefined` result collapses to empty. */
  function Map<T, U>(o: Optional<T>, f: T -> Slot<U>): (r: Run<Optional<U>, T>)
    ensures IsEmpty(o) ==> IsEmpty(r.result) && r.calls == []
    ensures IsPresent(o) ==> r.calls == [Unary(Get(o).value)]
    ensures IsPresent(o) ==> Get(r.result) == Get(OfNullable(f(Get(o).value)))
  {
    if Slots.IsNullish(o.slot) then Run(Empty(), []) else Run(OfNullable(f(o.slot.v)), [Unary(o.slot.v)])
  }

  /** `flatMap(mapper)`: the mapper's optional, returned as it is. */
  function FlatMap<T, U>(o: Optional<T>, f: T -> Optional<U>): (r: Run<Optional<U>, T>)
    ensures IsEmpty(o) ==> IsEmpty(r.result) && r.calls == []
    ensures IsPresent(o) ==> r.calls == [Unary(Get(o).value)]
    ensures IsPresent(o) ==> r.result == f(Get(o).value)
  {
    if Slots.IsNullish(o.slot) then Run(Empty(), []) else Run(f(o.slot.v), [Unary(o.slot.v)])
  }

  // ----- Fallbacks -----

  /** `orElse(other)`: the wrapped value, or `other` as it is. */
  function OrElse<T, U>(o: Optional<T>, other: U): (r: Either<T, U>)
    ensures r.Left? <==> IsPresent(o)
    ensures r.Left? ==> Get(o) == Ok(r.left)
    ensures r.Right? ==> r.right == other
  {
    if Slots.IsNullish(o.slot) then Right(other) else Left(o.slot.v)
  }

  /** `orElseGet(supplier)`: the wrapped value, or what the supplier returns; the
      supplier runs only on an empty optional. */
  function OrElseGet<T, U>(o: Optional<T>, s: () -> U): (r: Run<Either<T, U>, T>)
    ensures IsPresent(o) ==> r.result == Left(Get(o).value) && r.calls == []
    ensures IsEmpty(o) ==> r.result == Right(s()) && r.calls == [Nullary]
  {
    if Slots.IsNullish(o.slot) then Run(Right(s()), [Nullary]) else Run(Left(o.slot.v), [])
  }

  /** `orElseThrow(exceptionSupplier)`: the wrapped value, or throws the supplier's error. */
  function OrElseThrow<T>(o: Optional<T>, s: () -> Error): (r: Run<Result<T>, T>)
    ensures r.result.Ok? <==> IsPresent(o)
    ensures IsPresent(o) ==> r.result == Get(o) && r.calls == []
    ensures IsEmpty(o) ==> r.result == Err(s()) && r.calls == [Nullary]
  {
    if Slots.IsNullish(o.slot) then Run(Err(s()), [Nullary]) else Run(Ok(o.slot.v), [])
  }

  /** `or(optionalSupplier)`: the receiver itself when present, else the supplier's optional. */
  function Or<T>(o: Optional<T>, s: () -> Optional<T>): (r: Run<Optional<T>, T>)
    ensures IsPresent(o) ==> r.result == o && r.calls == []
    ensures IsEmpty(o) ==> r.result == s() && r.calls == [Nullary]
  {
    if IsEmpty(o) then Run(s(), [Nullary]) else Run(o, [])
  }

  /** `throwIfEmpty(exceptionSupplier)`: the receiver itself when present, else throws
      the supplier's error. */
  function ThrowIfEmpty<T>(o: Optional<T>, s: () -> Error): (r: Run<Result<Optional<T>>, T>)
    ensures r.result.Ok? <==> IsPresent(o)
    ensures IsPresent(o) ==> r.result == Ok(o) && r.calls == []
    ensures IsEmpty(o) ==> r.result == Err(s()) && r.calls == [Nullary]
  {
    if Slots.IsNullish(o.slot) then Run(Err(s()), [Nullary]) else Run(Ok(o), [])
  }
}
