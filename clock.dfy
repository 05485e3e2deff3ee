/**
 * Python `datetime` values as read from `datetime.utcnow()`, their chronological
 * order, and `isoformat()`. Clock reads are never made here: callers pass the value in.
 */
module Clock {
  import opened Strings
  import opened Results

  datatype DateTimeFields = DateTimeFields(year: nat, month: nat, day: nat,
                                           hour: nat, minute: nat, second: nat,
                                           microsecond: nat)

  predicate IsLeapYear(year: nat)
  {
    year % 4 == 0 && (year % 100 != 0 || year % 400 == 0)
  }

  function DaysInMonth(year: nat, month: nat): nat
  {
    if month == 2 then (if IsLeapYear(year) then 29 else 28)
    else if month == 4 || month == 6 || month == 9 || month == 11 then 30
    else 31
  }

  /** The ranges Python's `datetime` constructor enforces (MINYEAR = 1, MAXYEAR = 9999). */
  predicate ValidFields(d: DateTimeFields)
  {
    && 1 <= d.year <= 9999
    && 1 <= d.month <= 12
    && 1 <= d.day <= DaysInMonth(d.year, d.month)
    && d.hour < 24 && d.minute < 60 && d.second < 60
    && d.microsecond < 1000000
  }

  /** A naive UTC `datetime`, as `datetime.utcnow()` returns. */
  type DateTime = d: DateTimeFields | ValidFields(d) witness DateTimeFields(1, 1, 1, 0, 0, 0, 0)

  /**
   * A number that grows with time: comparing two of them is comparing the datetimes,
   * field by field from the year down to the microsecond.
   */
  function Instant(d: DateTime): nat
  {
    (((((d.year * 12 + (d.month - 1)) * 31 + (d.day - 1)) * 24 + d.hour) * 60 + d.minute) * 60 + d.second)
      * 1000000 + d.microsecond
  }

  /** `d.isoformat()`: `YYYY-MM-DDTHH:MM:SS`, then `.ffffff` only when the microseconds are non-zero. */
  function IsoFormat(d: DateTime): (s: string)
    ensures |s| == (if d.microsecond == 0 then 19 else 26)
  {
    PadDigits(d.year, 4) + "-" + PadDigits(d.month, 2) + "-" + PadDigits(d.day, 2)
      + "T" + PadDigits(d.hour, 2) + ":" + PadDigits(d.minute, 2) + ":" + PadDigits(d.second, 2)
      + (if d.microsecond == 0 then "" else "." + PadDigits(d.microsecond, 6))
  }

  /** `d.isoformat() + "Z"`, the timestamp form every response and log line uses. */
  function UtcStamp(d: DateTime): (s: string)
    ensures |s| > 0 && s[|s| - 1] == 'Z'
  {
    IsoFormat(d) + "Z"
  }

  /** Reads back the text `IsoFormat` writes. */
  function ParseIso(s: string): Option<DateTimeFields>
  {
    if && (|s| == 19 || |s| == 26)
       && s[4] == '-' && s[7] == '-' && s[10] == 'T' && s[13] == ':' && s[16] == ':'
       && (|s| == 26 ==> s[19] == '.')
    then
      Some(DateTimeFields(ParseDigits(s[0..4]), ParseDigits(s[5..7]), ParseDigits(s[8..10]),
                          ParseDigits(s[11..13]), ParseDigits(s[14..16]), ParseDigits(s[17..19]),
                          if |s| == 26 then ParseDigits(s[20..26]) else 0))
    else None
  }

  /** Where each field of `IsoFormat(d)` sits in the text. */
  lemma IsoLayout(d: DateTime)
    ensures var s := IsoFormat(d);
      && s[4] == '-' && s[7] == '-' && s[10] == 'T' && s[13] == ':' && s[16] == ':'
      && s[0..4] == PadDigits(d.year, 4) && s[5..7] == PadDigits(d.month, 2)
      && s[8..10] == PadDigits(d.day, 2) && s[11..13] == PadDigits(d.hour, 2)
      && s[14..16] == PadDigits(d.minute, 2) && s[17..19] == PadDigits(d.second, 2)
      && (d.microsecond != 0 ==> s[19] == '.' && s[20..26] == PadDigits(d.microsecond, 6))
  {
    var date := PadDigits(d.year, 4) + "-" + PadDigits(d.month, 2) + "-" + PadDigits(d.day, 2);
    var time := PadDigits(d.hour, 2) + ":" + PadDigits(d.minute, 2) + ":" + PadDigits(d.second, 2);
    var frac := if d.microsecond == 0 then "" else "." + PadDigits(d.microsecond, 6);
    var s := IsoFormat(d);
    assert s == date + "T" + time + frac;
    assert s[..10] == date;
    assert s[11..19] == time;
    assert s[19..] == frac;
  }

  lemma Powers()
    ensures Pow10(2) == 100 && Pow10(4) == 10000 && Pow10(6) == 1000000
  {
  }

  /** `isoformat()` loses nothing: the text determines the datetime. */
  lemma IsoFormatRoundTrip(d: DateTime)
    ensures ParseIso(IsoFormat(d)) == Some(d)
  {
    IsoLayout(d);
    Powers();
    PadDigitsRoundTrip(d.year, 4);
    PadDigitsRoundTrip(d.month, 2);
    PadDigitsRoundTrip(d.day, 2);
    PadDigitsRoundTrip(d.hour, 2);
    PadDigitsRoundTrip(d.minute, 2);
    PadDigitsRoundTrip(d.second, 2);
    PadDigitsRoundTrip(d.microsecond, 6);
  }

  /** Two datetimes render to the same text only if they are the same datetime. */
  lemma IsoFormatInjective(a: DateTime, b: DateTime)
    ensures IsoFormat(a) == IsoFormat(b) ==> a == b
  {
    IsoFormatRoundTrip(a);
    IsoFormatRoundTrip(b);
  }
}
