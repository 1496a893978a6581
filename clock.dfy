/**
 * Time as the model sees it. An instant (`time.Time`) is an integer count of seconds on
 * some fixed scale, with 0 standing for Go's zero time, the value `IsZero` reports. A calendar
 * reading of "now" (`time.Now()` broken into fields) is a `Date` or `DateTime` record that the
 * caller supplies; the layouts below render it as Go's `time.Format` does.
 */
module Clock {
  import opened Wrappers
  import opened Decimal

  /** An instant; later instants are larger. */
  type Time = int

  /** Go's zero `time.Time`, the "not supplied" value of a date field. */
  const ZeroTime: Time := 0

  predicate IsZero(t: Time) { t == ZeroTime }

  /** `t.Before(u)` and `t.After(u)`. */
  predicate Before(t: Time, u: Time) { t < u }
  predicate After(t: Time, u: Time) { t > u }

  datatype Date = Date(year: nat, month: nat, day: nat)

  datatype DateTime = DateTime(date: Date, hour: nat, minute: nat, second: nat)

  predicate IsLeapYear(y: nat) { y % 4 == 0 && (y % 100 != 0 || y % 400 == 0) }

  function DaysInMonth(y: nat, m: nat): nat
    requires 1 <= m <= 12
  {
    if m == 2 then (if IsLeapYear(y) then 29 else 28)
    else if m == 4 || m == 6 || m == 9 || m == 11 then 30
    else 31
  }

  /** A Gregorian calendar date, as `time.Time` yields; ISO 8601 basic format holds years 0..9999. */
  predicate ValidDate(d: Date) {
    d.year <= 9999 && 1 <= d.month <= 12 && 1 <= d.day <= DaysInMonth(d.year, d.month)
  }

  predicate ValidDateTime(t: DateTime) {
    ValidDate(t.date) && t.hour < 24 && t.minute < 60 && t.second < 60
  }

  /**
   * Layout "20060102": the calendar date in the basic format of ISO 8601
   * (section 4.1.2.2 of ISO 8601:2004), four-digit year, two-digit month and day.
   */
  function BasicDate(d: Date): string {
    Padded(d.year, 4) + Padded(d.month, 2) + Padded(d.day, 2)
  }

  /** Reads eight digits YYYYMMDD back into a date record. */
  function ParseBasicDate(s: string): (r: Option<Date>)
    ensures r.Some? <==> |s| == 8 && AllDigits(s)
  {
    if |s| == 8 && AllDigits(s) then
      Some(Date(ParseDigits(s[..4]), ParseDigits(s[4..6]), ParseDigits(s[6..])))
    else None
  }

  /** Every valid date renders as exactly eight digits that read back as the same date. */
  lemma BasicDateRoundTrip(d: Date)
    requires ValidDate(d)
    ensures |BasicDate(d)| == 8 && AllDigits(BasicDate(d))
    ensures ParseBasicDate(BasicDate(d)) == Some(d)
  {
    var y, m, dd := Padded(d.year, 4), Padded(d.month, 2), Padded(d.day, 2);
    PaddedRoundTrip(d.year, 4);
    PaddedRoundTrip(d.month, 2);
    PaddedRoundTrip(d.day, 2);
    var s := BasicDate(d);
    assert s[..4] == y && s[4..6] == m && s[6..] == dd;
  }

  /** Layout "20060102150405": date and time of day as fourteen digits. */
  function CompactTimestamp(t: DateTime): string {
    BasicDate(t.date) + Padded(t.hour, 2) + Padded(t.minute, 2) + Padded(t.second, 2)
  }

  function ParseCompactTimestamp(s: string): (r: Option<DateTime>)
    ensures r.Some? <==> |s| == 14 && AllDigits(s)
  {
    if |s| == 14 && AllDigits(s) then
      var date := ParseBasicDate(s[..8]);
      assert date.Some?;
      Some(DateTime(date.value, ParseDigits(s[8..10]), ParseDigits(s[10..12]), ParseDigits(s[12..])))
    else None
  }

  /** A valid reading of the clock renders as exactly fourteen digits that read back as itself. */
  lemma CompactTimestampRoundTrip(t: DateTime)
    requires ValidDateTime(t)
    ensures |CompactTimestamp(t)| == 14 && AllDigits(CompactTimestamp(t))
    ensures ParseCompactTimestamp(CompactTimestamp(t)) == Some(t)
  {
    BasicDateRoundTrip(t.date);
    PaddedRoundTrip(t.hour, 2);
    PaddedRoundTrip(t.minute, 2);
    PaddedRoundTrip(t.second, 2);
    var s := CompactTimestamp(t);
    assert s[..8] == BasicDate(t.date);
    assert s[8..10] == Padded(t.hour, 2);
    assert s[10..12] == Padded(t.minute, 2);
    assert s[12..] == Padded(t.second, 2);
  }

  /** Layout "2006-01-02 15:04:05". */
  function DateTimeText(t: DateTime): string {
    Padded(t.date.year, 4) + "-" + Padded(t.date.month, 2) + "-" + Padded(t.date.day, 2) + " "
    + Padded(t.hour, 2) + ":" + Padded(t.minute, 2) + ":" + Padded(t.second, 2)
  }
}
