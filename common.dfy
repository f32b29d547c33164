/**
 * Shared vocabulary: Java's nullable references, the exceptions the bridge
 * throws or lets escape, and Java's 32-bit `int`.
 */
module Common {

  /** A Java reference that may be `null`. */
  datatype Option<+T> = None | Some(value: T)

  /** The Java exceptions that escape the modelled methods. */
  datatype JavaException =
    | NullPointer
    | ClassCast
    | IllegalArgument
    | IllegalState(message: string)
    | Runtime(message: string)

  /** A value or the exception thrown instead of returning it. */
  datatype Result<+T> = Ok(value: T) | Err(error: JavaException)

  /** Normal completion of a `void` method, or the exception it throws. */
  datatype Outcome = Pass | Fail(error: JavaException)

  /** Java's `int` (and the non-null values of `Integer`). */
  newtype Int32 = x: int | -0x8000_0000 <= x < 0x8000_0000

  /** The Java string concatenation `"" + s` for a possibly-null `s`. */
  function JavaConcatText(s: Option<string>): string
  {
    if s.Some? then s.value else "null"
  }
}
