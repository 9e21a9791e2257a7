/** Instants and their text form. An instant is a count of milliseconds; its
    ISO text is rendered and read back by the two functions below, which are
    inverse to each other. */
module Timestamps {
  import opened Wrappers
  import opened Text

  type Instant = nat

  /** `date.toISOString()`. */
  function ToIso(t: Instant): (s: string)
    ensures s != ""
  {
    NatText(t)
  }

  /** `new Date(s)`: `None` for text that names no instant. */
  function ParseIso(s: string): Option<Instant>
  {
    ParseNat(s)
  }

  /** Reading back a rendered instant gives the instant. */
  lemma IsoRoundTrip(t: Instant)
    ensures ParseIso(ToIso(t)) == Some(t)
  {
    ParseNatText(t);
  }

  /** A JavaScript `Date`: an instant, or the "Invalid Date" that
      `new Date(text)` yields for text that names no instant. */
  datatype Date = Valid(time: Instant) | InvalidDate

  /** `new Date(text)`. */
  function DateOf(s: string): (d: Date)
    ensures d.Valid? <==> ParseIso(s).Some?
  {
    match ParseIso(s)
    case Some(t) => Valid(t)
    case None => InvalidDate
  }

  /** `date.toISOString()`, which throws a `RangeError` on an invalid date. */
  function DateIso(d: Date): (r: Either<string, string>)
    ensures r.Left? <==> d.InvalidDate?
    ensures r.Right? ==> r.value != ""
  {
    match d
    case Valid(t) => Right(ToIso(t))
    case InvalidDate => Left("RangeError: Invalid time value")
  }

  /** A valid date survives rendering and reading back. */
  lemma DateRoundTrip(d: Date)
    requires d.Valid?
    ensures DateIso(d).Right? && DateOf(DateIso(d).value) == d
  {
    IsoRoundTrip(d.time);
  }
}
