/** Vocabulary shared by every component: the exception kinds the library
    raises, result types standing in for C++ exceptions, 32-bit integers and
    the rational time base. */
module Base {

  /** A value of the C `int32_t` type. */
  type Int32 = x: int | -0x8000_0000 <= x < 0x8000_0000

  /** The exceptions of io::humble::ferry and io::humble::video.
      `what` is a short tag naming the check that failed; `FfmpegError`
      carries the negative native return code (FfmpegException). */
  datatype Exception =
    | InvalidArgument(what: string)
    | RuntimeError(what: string)
    | PropertyNotFound(what: string)
    | FfmpegError(code: int)

  /** The result of a `void` member that may throw. */
  datatype Outcome = Pass | Fail(exc: Exception)

  /** The result of a member that returns a value or throws. */
  datatype Result<+T> = Ok(value: T) | Err(exc: Exception)

  /** A pointer that may be null, when the pointee is a value. */
  datatype Option<+T> = None | Some(value: T)

  /** A time base num/den (io::humble::video::Rational, by value). */
  datatype Rational = Rational(num: Int32, den: Int32)

  /** FfmpegException::check: a negative native return code throws,
      carrying that code; any other code lets execution go on. */
  function Check(code: int): (r: Outcome)
    ensures r.Pass? <==> code >= 0
    ensures r.Fail? ==> r.exc == FfmpegError(code)
  {
    if code < 0 then Fail(FfmpegError(code)) else Pass
  }
}
