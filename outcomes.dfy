/** Shared vocabulary: absent values, checked construction and the Java
    scalar types the four value classes use. */
module Outcomes {

  /** A Java reference that may be null: None is null. */
  datatype Option<+T> = None | Some(value: T)

  /** The outcome of a Java constructor or method that may throw:
      Err carries the message of the exception thrown. */
  datatype Result<+T> = Ok(value: T) | Err(error: string)

  /** A Java `int`. */
  newtype int32 = x: int | -0x8000_0000 <= x < 0x8000_0000

  /** The finiteness test `NumberUtil.IsValid(double)`. Its body is not part
      of this model, so every checked constructor takes it as a parameter and
      every property below holds whatever the test accepts. */
  type Validity = real -> bool
}
