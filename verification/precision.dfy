/** The time units a caller can name, and their one-character wire codes. */
module Precision {
  import opened Wrappers
  import opened Errors

  /** The seven constants of java.util.concurrent.TimeUnit. */
  datatype TimeUnit = NANOSECONDS | MICROSECONDS | MILLISECONDS | SECONDS | MINUTES | HOURS | DAYS

  /** Detail message of the failure for a unit that has no wire code. */
  const UnsupportedUnitMessage: string := "time precision should be SECONDS or MILLISECONDS or MICROSECONDS"

  /** The units the service accepts as a time precision. */
  predicate Supported(t: TimeUnit) {
    t == SECONDS || t == MILLISECONDS || t == MICROSECONDS
  }

  /** Reads a wire code back as the unit it stands for; None for any other string.
      Note that "m" stands for milliseconds here, not minutes. */
  function ParsePrecision(code: string): Option<TimeUnit> {
    if code == "s" then Some(SECONDS)
    else if code == "m" then Some(MILLISECONDS)
    else if code == "u" then Some(MICROSECONDS)
    else None
  }

  /** Encodes a unit as the wire code sent with writes and queries. Exactly the
      three supported units have a code, a single character that reads back as
      the same unit; every other unit fails with the fixed message. */
  function ToTimePrecision(t: TimeUnit): (r: Result<string, LocalError>)
    ensures r.Success? <==> Supported(t)
    ensures r.Success? ==> |r.value| == 1 && ParsePrecision(r.value) == Some(t)
    ensures r.Failure? ==> r.error == IllegalArgument(Some(UnsupportedUnitMessage))
  {
    match t
    case SECONDS => Success("s")
    case MILLISECONDS => Success("m")
    case MICROSECONDS => Success("u")
    case _ => Failure(IllegalArgument(Some(UnsupportedUnitMessage)))
  }

  /** Every code that reads back as a unit is the code that unit encodes to. */
  lemma ParseThenEncode(code: string)
    ensures ParsePrecision(code).Some? ==> ToTimePrecision(ParsePrecision(code).value) == Success(code)
  {
  }

  /** No two units share a wire code. */
  lemma EncodingInjective(t1: TimeUnit, t2: TimeUnit)
    requires ToTimePrecision(t1).Success?
    requires ToTimePrecision(t1) == ToTimePrecision(t2)
    ensures t1 == t2
  {
  }
}
