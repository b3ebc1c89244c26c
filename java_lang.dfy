/** What the modelled Java code shares: optional values, results that may be
    an exception, Java's `int` and `byte`, and the narrowing conversion to `int`. */
module JavaLang {

  datatype Option<+T> = None | Some(value: T)

  datatype Result<+T> = Ok(value: T) | Err(failure: Failure)

  /** The exceptions the modelled code can raise. */
  datatype Failure =
    | NullPointer
    | ClassCast
    | IndexOutOfBounds
    | NumberFormat
    | PersistenceConflict                  // a shared object of that name exists with the other persistence flag
    | Rethrown(cause: nat)                 // a RuntimeException wrapping the given throwable

  const TWO32: int := 0x1_0000_0000

  /** Java's `int`. */
  type int32 = x: int | -0x8000_0000 <= x < 0x8000_0000

  /** Java's `byte`. */
  type int8 = x: int | -0x80 <= x < 0x80

  /** Java's narrowing conversion to `int`: the low 32 bits of `x`, read in two's complement. */
  function Wrap32(x: int): (r: int32)
    ensures (r - x) % TWO32 == 0
    ensures -0x8000_0000 <= x < 0x8000_0000 ==> r == x
  {
    (x + 0x8000_0000) % TWO32 - 0x8000_0000
  }
}
