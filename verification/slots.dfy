/**
 The raw slot of an optional. JavaScript has two markers of absence, `null` and
 `undefined`; everything else, including the falsy values `0`, `''` and `false`,
 is a value.
 */
module Slots {

  /** `T | null | undefined`, where `T` stands for the non-nullish part of the
      source's type parameter: TypeScript flattens nested nullable types, so a
      `Val` is never itself one of the two markers there. */
  datatype Slot<T> = Null | Undefined | Val(v: T)

  /** The module-level `isEmpty` helper (a nullish check): a slot is absent exactly when it holds no value. */
  function IsNullish<T>(x: Slot<T>): (absent: bool)
    ensures absent <==> (x == Null || x == Undefined)
  {
    x.Undefined? || x.Null?
  }

  /** Falsy JavaScript values are not absent. */
  lemma FalsyValuesArePresent()
    ensures !IsNullish(Val(0)) && !IsNullish(Val("")) && !IsNullish(Val(false))
  {}
}
