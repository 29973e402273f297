/**
 How the optional's observable effects are represented: thrown errors become a
 `Result`, the `U | T` of the fallbacks becomes an `Either`, and the callbacks an
 operation invokes are recorded as a trace of calls.
 */
module Effects {

  /** A thrown `Error`, reduced to its message. */
  datatype Error = Error(message: string)

  /** Thrown by `of` on an absent argument. */
  const NotDefined: Error := Error("value is not defined")

  /** Thrown by `get` on an empty optional. */
  const EmptyOptional: Error := Error("Optional is empty")

  /** Either the operation returned normally with `value`, or it threw `error`. */
  datatype Result<X> = Ok(value: X) | Err(error: Error)

  /** A value of the union type `T | U`; `Left` came from the optional, `Right` from the fallback. */
  datatype Either<L, R> = Left(left: L) | Right(right: R)

  /** One callback invocation: a one-argument callback (consumer, predicate, mapper)
      called with `arg`, or a no-argument callback (supplier, empty action). */
  datatype Call<T> = Unary(arg: T) | Nullary

  /** What an operation that takes callbacks returns, and the callbacks it invoked, in order. */
  datatype Run<R, T> = Run(result: R, calls: seq<Call<T>>)
}
