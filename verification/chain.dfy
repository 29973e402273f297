/**
 Chains of transformations, the way the optional is used:
 `Optional.ofNullable(1).filter(...).map(...).flatMap(...)`. A chain is a
 sequence of steps over one payload type; running it threads the optional
 through the steps and concatenates the callbacks each step invoked.
 */
module Chains {
  import opened Slots
  import opened Effects
  import opened Optionals

  /** One link of a chain: a `filter`, `map` or `flatMap` call with its callback. */
  datatype Step<!T> =
    | Filtering(p: T -> bool)
    | Mapping(f: T -> Slot<T>)
    | FlatMapping(g: T -> Optional<T>)

  /** One step: its callback runs once on a present optional and never on an empty one. */
  function Apply<T>(o: Optional<T>, step: Step<T>): (r: Run<Optional<T>, T>)
    ensures IsEmpty(o) ==> IsEmpty(r.result) && r.calls == []
    ensures IsPresent(o) ==> r.calls == [Unary(Get(o).value)]
  {
    match step
    case Filtering(p) => Filter(o, p)
    case Mapping(f) => Map(o, f)
    case FlatMapping(g) => FlatMap(o, g)
  }

  /** Runs the steps from left to right. Each callback runs at most once; on a present
      start the first callback receives the held value; an empty optional passes through every remaining step untouched;
      and a present final result means every step ran its callback. */
  function Chain<T>(o: Optional<T>, steps: seq<Step<T>>): (r: Run<Optional<T>, T>)
    decreases |steps|
    ensures |r.calls| <= |steps|
    ensures IsPresent(o) && |steps| > 0 ==> |r.calls| > 0 && r.calls[0] == Unary(Get(o).value)
    ensures IsEmpty(o) ==> IsEmpty(r.result) && r.calls == []
    ensures IsPresent(r.result) ==> IsPresent(o) && |r.calls| == |steps|
  {
    if |steps| == 0 then Run(o, [])
    else
      var first := Apply(o, steps[0]);
      var rest := Chain(first.result, steps[1..]);
      Run(rest.result, first.calls + rest.calls)
  }

  /** Running two chains one after the other is running their concatenation. */
  lemma {:induction false} ChainAppend<T>(o: Optional<T>, s1: seq<Step<T>>, s2: seq<Step<T>>)
    decreases |s1|
    ensures Chain(o, s1 + s2).result == Chain(Chain(o, s1).result, s2).result
    ensures Chain(o, s1 + s2).calls == Chain(o, s1).calls + Chain(Chain(o, s1).result, s2).calls
  {
    if |s1| == 0 {
      assert s1 + s2 == s2;
    } else {
      assert (s1 + s2)[0] == s1[0];
      assert (s1 + s2)[1..] == s1[1..] + s2;
      var first := Apply(o, s1[0]);
      ChainAppend(first.result, s1[1..], s2);
    }
  }

  /** Once a chain has emptied the optional, whatever follows invokes no callback and
      the result stays empty: `filter(x => x > 10).map(...)` never runs the mapper on 1. */
  lemma EmptiedChainStaysEmpty<T>(o: Optional<T>, s1: seq<Step<T>>, s2: seq<Step<T>>)
    requires IsEmpty(Chain(o, s1).result)
    ensures IsEmpty(Chain(o, s1 + s2).result)
    ensures Chain(o, s1 + s2).calls == Chain(o, s1).calls
  {
    ChainAppend(o, s1, s2);
  }

  /** The scenario from the tests, as a chain: the filter drops 1 and the mapper never runs. */
  lemma FilterThenMapScenario()
    ensures var r := Chain(OfNullable(Val(1)), [Filtering(x => x > 10), Mapping(x => Val(x + 1))]);
      IsEmpty(r.result) && r.calls == [Unary(1)]
  {
    var s := [Filtering((x: int) => x > 10), Mapping((x: int) => Val(x + 1))];
    assert s[1..][1..] == [];
  }
}
