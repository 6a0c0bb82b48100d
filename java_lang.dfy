/**
 * Values of the Java platform that the service's code relies on: nullable
 * references, results of calls that may throw, the JDK exceptions the core
 * raises itself, and the fixed-width integer types it stores.
 */
module JavaLang {

  /** A Java reference that may be null: `None` stands for null. */
  datatype Option<+T> = None | Some(value: T)

  /** The outcome of a Java call that either returns a value or throws. */
  datatype Result<+T, +E> = Success(value: T) | Failure(error: E)

  /** The outcome of a Java call returning void that may throw. */
  datatype Outcome<+E> = Pass | Fail(error: E)

  /**
   * The JDK exceptions the core throws directly (`Objects.requireNonNull`,
   * argument checks). A null exception message is `None`.
   */
  datatype JavaException =
    | NullPointerException(npeMessage: Option<string>)
    | IllegalArgumentException(iaeMessage: string)

  /** A Java `byte[]` payload. */
  type Bytes = seq<bv8>

  const LONG_MIN: int := -0x8000_0000_0000_0000
  const LONG_MAX: int := 0x7FFF_FFFF_FFFF_FFFF

  /** A value of Java's 64-bit `long` / `Long`. */
  type Long = n: int | LONG_MIN <= n <= LONG_MAX

  /** A value of Java's 16-bit `short` / `Short`. */
  type Short = n: int | -0x8000 <= n <= 0x7FFF

  /** A value of Java's 32-bit `int` / `Integer`. */
  type Int32 = n: int | -0x8000_0000 <= n <= 0x7FFF_FFFF

  /** An instant (`OffsetDateTime`), abstracted as a point on a time line. */
  type Timestamp = int
}
