/** Optional values, call outcomes and the Java integer and byte types shared by the model. */
module Wrappers {

  /** An optional value: Java's nullable `Integer` fields and `Optional<Integer>`. */
  datatype Option<+T> = None | Some(value: T)

  /** The outcome of a factory or `build()` call: a value, or the exception it throws. */
  datatype Result<+R, +E> = Success(value: R) | Failure(error: E)

  /** The outcome of a builder setter: it either returns normally or throws. */
  datatype Outcome<+E> = Pass | Fail(error: E)

  /** Java's 32-bit signed `int`. */
  newtype int32 = x: int | -0x8000_0000 <= x < 0x8000_0000

  /** An octet, read as unsigned (Java's signed `byte` holds the same eight bits). */
  newtype uint8 = x: int | 0 <= x < 0x100
}
