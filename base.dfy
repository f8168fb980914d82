/** Values shared by every module of the model: null as Option, thrown exceptions
    as the error half of Result, the 32-bit integers of .NET and C#'s truncating
    division. */
module Base {

  /** A reference that may be null. */
  datatype Option<+T> = None | Some(value: T)

  /** A call that either returns a value or throws. */
  datatype Result<+T, +E> = Ok(value: T) | Err(error: E)

  /** System.Int32. */
  newtype int32 = x: int | -0x8000_0000 <= x < 0x8000_0000

  const MinInt32: int := -0x8000_0000
  const MaxInt32: int := 0x7FFF_FFFF

  type byte = x: int | 0 <= x < 256

  /** The exception classes the core throws or inspects. */
  datatype ExceptionKind =
    | SystemException            // plain System.Exception thrown by the core itself
    | ArgumentNullException
    | NullReferenceException
    | InvalidOperationException  // LINQ's SingleOrDefault on more than one element
    | PuppeteerException         // PuppeteerSharp's base exception class
    | EvaluationFailedException  // PuppeteerSharp, a PuppeteerException
    | WaitTaskTimeoutException   // PuppeteerSharp, a PuppeteerException

  /** Whether a handler `catch (PuppeteerException)` catches this kind. */
  predicate IsPuppeteerException(k: ExceptionKind)
  {
    k == PuppeteerException || k == EvaluationFailedException || k == WaitTaskTimeoutException
  }

  /** An exception: its class, its Message, and its InnerException's Message (None when
      there is no inner exception). */
  datatype Exception = Exception(kind: ExceptionKind, message: string, inner: Option<string>)

  /** C#'s `/` on integers for a positive divisor: it truncates toward zero. */
  function TruncDiv(a: int, b: int): (q: int)
    requires b > 0
    ensures a >= 0 ==> q == a / b
    ensures a < 0 ==> q == -((-a) / b)
  {
    if a >= 0 then a / b else -((-a) / b)
  }

  /** C#'s `%` for a positive divisor: the remainder has the sign of the dividend. */
  function TruncRem(a: int, b: int): (r: int)
    requires b > 0
    ensures a == b * TruncDiv(a, b) + r
    ensures -b < r < b
    ensures a >= 0 ==> r >= 0
    ensures a <= 0 ==> r <= 0
  {
    a - b * TruncDiv(a, b)
  }

  /** C#'s conversion of an integral double to int, saturating at the ends of the range. */
  function SaturateToInt32(x: int): (r: int32)
    ensures MinInt32 <= x <= MaxInt32 ==> r as int == x
    ensures x > MaxInt32 ==> r as int == MaxInt32
    ensures x < MinInt32 ==> r as int == MinInt32
  {
    if x > MaxInt32 then MaxInt32 as int32
    else if x < MinInt32 then MinInt32 as int32
    else x as int32
  }
}
