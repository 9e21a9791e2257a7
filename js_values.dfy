/** The JavaScript values that flow from the spreadsheet and CSV parsers into
    the row normaliser, with the three coercions the normaliser applies to
    them: truthiness (`x || d`), `String(x)` and `Number(x)`. */
module JsValues {
  import opened Wrappers
  import opened Text

  /** A JavaScript number. Finite numbers are exact reals here (no binary
      floating point); `NaN` and the two infinities are tagged. */
  datatype Num = Finite(r: real) | NaN | PosInf | NegInf

  /** A cell value as the parsers return it. With `dynamicTyping` the CSV
      library turns a cell that looks like an ISO date into a `Date` object:
      `DateObject` carries its time value in milliseconds since the epoch,
      `None` for an "Invalid Date". */
  datatype Value = Undefined | Null | Bool(b: bool) | Number(n: Num) | Str(s: string) | DateObject(ms: Option<int>)

  /** JavaScript truthiness: `undefined`, `null`, `false`, `0`, `NaN` and
      `""` are falsy, everything else is truthy, objects included. */
  predicate Truthy(v: Value)
  {
    match v
    case Undefined => false
    case Null => false
    case Bool(b) => b
    case Number(n) => !(n.NaN? || n == Finite(0.0))
    case Str(s) => s != ""
    case DateObject(_) => true
  }

  // ------------------------------------------------------------- String(date)

  const MS_PER_DAY: nat := 86400000

  /** Year, month (1 to 12) and day of the month of the day `days` after
      1970-01-01 in the proleptic Gregorian calendar, counted in 400-year
      eras of 146097 days from 0000-03-01. */
  function CivilFromDays(days: int): (int, int, int)
  {
    var z := days + 719468;
    var era := z / 146097;
    var doe := z % 146097;
    var yoe := (doe - doe / 1460 + doe / 36524 - doe / 146096) / 365;
    var doy := doe - (365 * yoe + yoe / 4 - yoe / 100);
    var mp := (5 * doy + 2) / 153;
    var day := doy - (153 * mp + 2) / 5 + 1;
    var month := if mp < 10 then mp + 3 else mp - 9;
    (yoe + era * 400 + (if month <= 2 then 1 else 0), month, day)
  }

  /** 1970-01-01 is day 0. */
  lemma EpochIsNewYear1970()
    ensures CivilFromDays(0) == (1970, 1, 1)
  {
    assert 719468 / 146097 == 4 && 719468 % 146097 == 135080;
    assert (135080 - 135080 / 1460 + 135080 / 36524 - 135080 / 146096) / 365 == 369;
    assert 135080 - (365 * 369 + 369 / 4 - 369 / 100) == 306;
    assert (5 * 306 + 2) / 153 == 10 && 306 - (153 * 10 + 2) / 5 + 1 == 1;
  }

  /** The last day of February in a leap year, and the first of March. */
  lemma LeapDay2024()
    ensures CivilFromDays(19782) == (2024, 2, 29)
    ensures CivilFromDays(19783) == (2024, 3, 1)
  {
    assert 739250 / 146097 == 5 && 739250 % 146097 == 8765;
    assert (8765 - 8765 / 1460 + 8765 / 36524 - 8765 / 146096) / 365 == 23;
    assert 8765 - (365 * 23 + 23 / 4 - 23 / 100) == 365;
    assert (5 * 365 + 2) / 153 == 11 && 365 - (153 * 11 + 2) / 5 + 1 == 29;
    assert 739251 / 146097 == 5 && 739251 % 146097 == 8766;
    assert (8766 - 8766 / 1460 + 8766 / 36524 - 8766 / 146096) / 365 == 24;
    assert 8766 - (365 * 24 + 24 / 4 - 24 / 100) == 0;
  }

  /** `n` in decimal, left-padded with zeros to `width` digits. */
  function Padded(n: nat, width: nat): (t: string)
    ensures |t| >= width && |t| >= 1
  {
    var digits := NatText(n);
    if |digits| >= width then digits else seq(width - |digits|, _ => '0') + digits
  }

  function WeekdayName(w: nat): string
    requires w < 7
  {
    ["Sun", "Mon", "Tue", "Wed", "Thu", "Fri", "Sat"][w]
  }

  function MonthName(m: int): string
  {
    if 1 <= m <= 12 then ["Jan", "Feb", "Mar", "Apr", "May", "Jun", "Jul", "Aug", "Sep", "Oct", "Nov", "Dec"][m - 1]
    else ""
  }

  /** The zone part of a date's text in UTC. */
  const ZONE_TEXT := " GMT+0000 (Coordinated Universal Time)"

  /** `Date.prototype.toString` of a valid time value in UTC: weekday,
      month, day, year, time and the zone, as in
      "Thu Jan 01 1970 00:00:00 GMT+0000 (Coordinated Universal Time)".
      1970-01-01 was a Thursday. */
  function DateText(ms: int): (t: string)
    ensures WeekdayName((ms / MS_PER_DAY + 4) % 7) <= t
    ensures |t| >= |ZONE_TEXT| && t[|t| - |ZONE_TEXT|..] == ZONE_TEXT
  {
    var head := WeekdayName((ms / MS_PER_DAY + 4) % 7) + " " + CalendarText(ms);
    EndsWith(head, ZONE_TEXT);
    head + ZONE_TEXT
  }

  lemma EndsWith(s: string, suffix: string)
    ensures (s + suffix)[|s|..] == suffix
  {
  }

  /** The month, day, year and time of day of a time value in UTC, as
      `Date.prototype.toString` writes them. */
  function CalendarText(ms: int): string
  {
    var days := ms / MS_PER_DAY;
    var inDay := ms % MS_PER_DAY;
    var (year, month, day) := CivilFromDays(days);
    MonthName(month) + " " + Padded(if day >= 0 then day else 0, 2) + " "
    + (if year < 0 then "-" else "") + Padded(if year >= 0 then year else -year, 4) + " "
    + Padded(inDay / 3600000, 2) + ":" + Padded(inDay / 60000 % 60, 2) + ":" + Padded(inDay / 1000 % 60, 2)
  }

  // ---------------------------------------------------------------- String(x)

  /** Decimal digits of a fraction in [0, 1), at most `fuel` of them, stopping
      as soon as the remaining fraction is zero. */
  function FractionDigits(f: real, fuel: nat): (r: string)
    requires 0.0 <= f < 1.0
    ensures |r| <= fuel
    ensures forall i :: 0 <= i < |r| ==> IsDigit(r[i])
    decreases fuel
  {
    if fuel == 0 || f == 0.0 then ""
    else
      var d := (f * 10.0).Floor;
      [DigitChar(d)] + FractionDigits(f * 10.0 - d as real, fuel - 1)
  }

  /** Rendering of a non-negative finite number: integer part, then the
      fractional digits after a point when there are any. */
  function MagnitudeText(r: real): (t: string)
    requires r >= 0.0
    ensures |t| >= 1 && IsDigit(t[0])
  {
    var whole := r.Floor;
    var frac := r - whole as real;
    NatText(whole) + (if frac == 0.0 then "" else "." + FractionDigits(frac, 20))
  }

  /** `String(n)` for a number. */
  function NumberText(n: Num): (t: string)
    ensures |t| >= 1
  {
    match n
    case NaN => "NaN"
    case PosInf => "Infinity"
    case NegInf => "-Infinity"
    case Finite(r) => if r < 0.0 then "-" + MagnitudeText(-r) else MagnitudeText(r)
  }

  /** `String(v)`. */
  function ToText(v: Value): string
  {
    match v
    case Undefined => "undefined"
    case Null => "null"
    case Bool(b) => if b then "true" else "false"
    case Number(n) => NumberText(n)
    case Str(s) => s
    case DateObject(ms) => if ms.Some? then DateText(ms.value) else "Invalid Date"
  }

  /** A truthy value never stringifies to the empty string. */
  lemma TruthyTextNonEmpty(v: Value)
    requires Truthy(v)
    ensures ToText(v) != ""
  {
  }

  // ---------------------------------------------------------------- Number(x)

  /** The white-space and line-terminator characters `Number` trims. */
  predicate IsSpace(c: char)
  {
    c == ' ' || c == '\t' || c == '\n' || c == '\r' || c == '\U{B}' || c == '\U{C}'
    || c == '\U{A0}' || c == '\U{FEFF}' || c == '\U{1680}' || ('\U{2000}' <= c <= '\U{200A}')
    || c == '\U{2028}' || c == '\U{2029}' || c == '\U{202F}' || c == '\U{205F}' || c == '\U{3000}'
  }

  function TrimStart(s: string): (r: string)
    ensures |r| <= |s| && r == s[|s| - |r|..]
    ensures |r| > 0 ==> !IsSpace(r[0])
  {
    if |s| > 0 && IsSpace(s[0]) then TrimStart(s[1..]) else s
  }

  function TrimEnd(s: string): (r: string)
    ensures |r| <= |s| && r == s[..|r|]
    ensures |r| > 0 ==> !IsSpace(r[|r| - 1])
    ensures |s| > 0 && !IsSpace(s[0]) ==> |r| > 0
  {
    if |s| > 0 && IsSpace(s[|s| - 1]) then TrimEnd(s[..|s| - 1]) else s
  }

  function Trim(s: string): string
  {
    TrimEnd(TrimStart(s))
  }

  predicate AllDigits(s: string)
  {
    forall i :: 0 <= i < |s| ==> IsDigit(s[i])
  }

  /** Value of a (possibly empty) run of decimal digits. */
  function DigitsValue(s: string): nat
    requires AllDigits(s)
  {
    if s == "" then 0 else ParseNat(s).value
  }

  function Pow10(k: nat): (p: nat)
    ensures p >= 1
  {
    if k == 0 then 1 else 10 * Pow10(k - 1)
  }

  /** Position of the first `.` in `s`, or `|s|` when there is none. */
  function PointIndex(s: string): (k: nat)
    ensures k <= |s|
    ensures forall i :: 0 <= i < k ==> s[i] != '.'
    ensures k < |s| ==> s[k] == '.'
  {
    if s == "" then 0
    else if s[0] == '.' then 0
    else 1 + PointIndex(s[1..])
  }

  /** An unsigned decimal literal `digits [. digits]` with at least one
      digit; `NaN` for anything else. */
  function UnsignedDecimal(t: string): Num
  {
    var k := PointIndex(t);
    var whole := t[..k];
    var frac := if k < |t| then t[k + 1..] else "";
    if (whole == "" && frac == "") || !AllDigits(whole) || !AllDigits(frac) then NaN
    else Finite(DigitsValue(whole) as real + DigitsValue(frac) as real / Pow10(|frac|) as real)
  }

  function Negate(n: Num): Num
  {
    match n
    case Finite(r) => Finite(-r)
    case NaN => NaN
    case PosInf => NegInf
    case NegInf => PosInf
  }

  /** `Number(s)` for a string: blank text is 0, an optional sign, then
      `Infinity` or a decimal literal; anything else is `NaN`. */
  function TextToNumber(s: string): Num
  {
    var t := Trim(s);
    if t == "" then Finite(0.0)
    else if t == "Infinity" || t == "+Infinity" then PosInf
    else if t == "-Infinity" then NegInf
    else if t[0] == '-' then Negate(UnsignedDecimal(t[1..]))
    else if t[0] == '+' then UnsignedDecimal(t[1..])
    else UnsignedDecimal(t)
  }

  /** `Number(v)`. */
  function ToNumber(v: Value): Num
  {
    match v
    case Undefined => NaN
    case Null => Finite(0.0)
    case Bool(b) => if b then Finite(1.0) else Finite(0.0)
    case Number(n) => n
    case Str(s) => TextToNumber(s)
    case DateObject(ms) => if ms.Some? then Finite(ms.value as real) else NaN
  }

  /** Text without surrounding white space is left alone by `Trim`. */
  lemma TrimUntouched(s: string)
    requires |s| > 0 && !IsSpace(s[0]) && !IsSpace(s[|s| - 1])
    ensures Trim(s) == s
  {
  }

  /** A non-empty run of digits is read as its decimal value. */
  lemma UnsignedDigits(t: string)
    requires t != "" && AllDigits(t)
    ensures UnsignedDecimal(t) == Finite(DigitsValue(t) as real)
  {
    assert t[..PointIndex(t)] == t;
  }

  /** A rendered natural reads back as that number. */
  lemma NumberOfNatText(n: nat)
    ensures TextToNumber(NatText(n)) == Finite(n as real)
  {
    var s := NatText(n);
    TrimUntouched(s);
    assert s[0] != '-' && s[0] != '+' && s[0] != 'I';
    assert s != "Infinity" && s != "+Infinity" && s != "-Infinity";
    UnsignedDigits(s);
    ParseNatText(n);
  }

  /** A literal whose first character is neither a digit nor a point is
      not a number. */
  lemma NonDigitStartIsNaN(t: string)
    requires |t| > 0 && !IsDigit(t[0]) && t[0] != '.'
    ensures UnsignedDecimal(t) == NaN
  {
    var k := PointIndex(t);
    assert k > 0 && t[..k][0] == t[0];
  }

  /** Text that starts with a lower-case letter is not a number. */
  lemma LetterTextIsNaN(s: string)
    requires |s| > 0 && 'a' <= s[0] <= 'z'
    ensures TextToNumber(s) == NaN
  {
    var t := Trim(s);
    assert |t| > 0 && t[0] == s[0] by {
      assert TrimStart(s) == s;
    }
    assert t != "Infinity" && t != "+Infinity" && t != "-Infinity" by {
      assert t[0] != 'I' && t[0] != '+' && t[0] != '-';
    }
    NonDigitStartIsNaN(t);
  }
}
