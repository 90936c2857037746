/** Option, Result, Outcome and the 64-bit Long, shared by every module of the model. */
module Common {

  /** A value that may be absent: Kotlin's `T?` and Java's `Optional<T>`. */
  datatype Option<+T> = None | Some(value: T)

  /** The outcome of an operation that throws in the source: `Err` carries the exception. */
  datatype Result<+T, +E> = Ok(value: T) | Err(error: E)

  /** The outcome of an operation that returns nothing but may throw. */
  datatype Outcome<+E> = Pass | Fail(error: E)

  /** Java's `long` (and Kotlin's `Long`): a 64-bit two's-complement integer. */
  const LongMin: int := -0x8000_0000_0000_0000
  const LongModulus: int := 0x1_0000_0000_0000_0000
  type Long = x: int | LongMin <= x < -LongMin

  /** The value that 64-bit two's-complement arithmetic leaves of the mathematical integer `x`. */
  function WrapLong(x: int): (r: Long)
    ensures (r - x) % LongModulus == 0
    ensures LongMin <= x < -LongMin ==> r == x
  {
    (x - LongMin) % LongModulus + LongMin
  }
}
