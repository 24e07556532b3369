/**
 * Python's naive `datetime` as the history codec writes and reads it: a calendar record that is
 * valid by construction, the six fields of "%Y-%m-%d %H-%M-%S" as `strftime` writes and `strptime` reads them, and
 * the microsecond count used to compare and subtract timestamps.
 */
module Timestamps {
  import opened Text
  import opened Wrappers

  datatype DateTimeFields = DateTimeFields(
    year: int, month: int, day: int, hour: int, minute: int, second: int, microsecond: int)

  predicate IsLeapYear(y: int) {
    y % 4 == 0 && (y % 100 != 0 || y % 400 == 0)
  }

  function DaysInMonth(y: int, m: int): (d: int)
    requires 1 <= m <= 12
    ensures 28 <= d <= 31
  {
    if m == 2 then (if IsLeapYear(y) then 29 else 28)
    else if m == 4 || m == 6 || m == 9 || m == 11 then 30
    else 31
  }

  /** The range Python's `datetime` constructor accepts (it raises ValueError otherwise). */
  predicate ValidDateTime(t: DateTimeFields) {
    && 1 <= t.year <= 9999
    && 1 <= t.month <= 12
    && 1 <= t.day <= DaysInMonth(t.year, t.month)
    && 0 <= t.hour < 24
    && 0 <= t.minute < 60
    && 0 <= t.second < 60
    && 0 <= t.microsecond < 1000000
  }

  type DateTime = t: DateTimeFields | ValidDateTime(t) witness DateTimeFields(1, 1, 1, 0, 0, 0, 0)

  /** `datetime.datetime.min`. */
  const Min: DateTime := DateTimeFields(1, 1, 1, 0, 0, 0, 0)

  const MicrosPerSecond := 1000000

  function DaysBeforeYear(y: int): int
    requires y >= 1
  {
    var p := y - 1;
    365 * p + p / 4 - p / 100 + p / 400
  }

  function DaysBeforeMonth(y: int, m: int): int
    requires 1 <= m <= 12
  {
    if m == 1 then 0 else DaysBeforeMonth(y, m - 1) + DaysInMonth(y, m - 1)
  }

  /** Microseconds since `datetime.min`; `a - b` of two datetimes is `Micros(a) - Micros(b)`. */
  function Micros(t: DateTime): int {
    var days := DaysBeforeYear(t.year) + DaysBeforeMonth(t.year, t.month) + t.day - 1;
    ((days * 24 + t.hour) * 60 + t.minute) * 60 * MicrosPerSecond + t.second * MicrosPerSecond + t.microsecond
  }

  /** The datetime with its microseconds dropped, which is all that "%S" keeps. */
  function TruncateToSecond(t: DateTime): (r: DateTime)
    ensures r.microsecond == 0
    ensures r.year == t.year && r.month == t.month && r.day == t.day
    ensures r.hour == t.hour && r.minute == t.minute && r.second == t.second
  {
    t.(microsecond := 0)
  }

  /** The six digit fields `strftime("%Y-%m-%d %H-%M-%S")` writes, in order. */
  function TimeFields(t: DateTime): (fields: seq<string>)
    ensures |fields| == 6
    ensures forall i :: 0 <= i < 6 ==> IsDigitRun(fields[i])
  {
    [ZeroPad(t.year, 4), ZeroPad(t.month, 2), ZeroPad(t.day, 2),
     ZeroPad(t.hour, 2), ZeroPad(t.minute, 2), ZeroPad(t.second, 2)]
  }

  /**
   * Whether `strptime` accepts a run of digits for a directive whose pattern allows one digit
   * at least `lo`, or two digits between `lo` and `hi` (`%m`, `%d`, `%H`, `%M`, `%S`); every `hi`
   * used here is above 9, so a single digit never exceeds it.
   */
  predicate FieldMatches(run: string, lo: nat, hi: nat)
    requires IsDigitRun(run)
  {
    (|run| == 1 || |run| == 2) && lo <= ParseNat(run) <= hi
  }

  /**
   * `datetime.strptime(text, "%Y-%m-%d %H-%M-%S")` for a text whose six fields are the given digit
   * runs. None stands for the ValueError it raises: a field the directive's pattern does not
   * accept, or a date or second the `datetime` constructor refuses.
   */
  function ParseTime(fields: seq<string>): (r: Option<DateTime>)
    requires |fields| == 6 && forall i :: 0 <= i < 6 ==> IsDigitRun(fields[i])
    ensures r.Some? ==> r.value.microsecond == 0
  {
    if || |fields[0]| != 4
       || !FieldMatches(fields[1], 1, 12)
       || !FieldMatches(fields[2], 1, 31)
       || !FieldMatches(fields[3], 0, 23)
       || !FieldMatches(fields[4], 0, 59)
       || !FieldMatches(fields[5], 0, 61)
    then None
    else
      assert IsDigitRun(fields[0]) && IsDigitRun(fields[1]) && IsDigitRun(fields[2]);
      var year, month, day := ParseNat(fields[0]), ParseNat(fields[1]), ParseNat(fields[2]);
      var hour, minute, second := ParseNat(fields[3]), ParseNat(fields[4]), ParseNat(fields[5]);
      if year < 1 || day > DaysInMonth(year, month) || second > 59 then None
      else
        Some(DateTimeFields(year, month, day, hour, minute, second, 0))
  }

  /** Formatting and parsing back gives the datetime to the second. */
  lemma FormatParseRoundTrip(t: DateTime)
    ensures ParseTime(TimeFields(t)) == Some(TruncateToSecond(t))
  {
    var f := TimeFields(t);
    assert Pow10(2) == 100 && Pow10(4) == 10000;
    PaddedField(t.year, 4);
    PaddedField(t.month, 2);
    PaddedField(t.day, 2);
    PaddedField(t.hour, 2);
    PaddedField(t.minute, 2);
    PaddedField(t.second, 2);
    assert f[0] == ZeroPad(t.year, 4) && f[1] == ZeroPad(t.month, 2) && f[2] == ZeroPad(t.day, 2);
    assert f[3] == ZeroPad(t.hour, 2) && f[4] == ZeroPad(t.minute, 2) && f[5] == ZeroPad(t.second, 2);
  }

  /** A number below `10^width`, padded to that width, is read back as itself. */
  lemma PaddedField(n: nat, width: nat)
    requires width >= 1 && n < Pow10(width)
    ensures |ZeroPad(n, width)| == width && ParseNat(ZeroPad(n, width)) == n
  {
    ParseZeroPad(n, width);
    NatToStringLength(n, width);
    ZeroPadLength(n, width);
  }

  /** `strptime` refuses a day that its month does not have, such as 30 February. */
  lemma ParseTimeRejectsImpossibleDay(fields: seq<string>)
    requires |fields| == 6 && forall i :: 0 <= i < 6 ==> IsDigitRun(fields[i])
    requires IsDigitRun(fields[0]) && IsDigitRun(fields[2])
    requires FieldMatches(fields[1], 1, 12)
    requires ParseNat(fields[2]) > DaysInMonth(ParseNat(fields[0]), ParseNat(fields[1]))
    ensures ParseTime(fields) == None
  {
  }

  /** `datetime.min` has no microseconds before it. */
  lemma MicrosOfMin()
    ensures Micros(Min) == 0
  {
  }

  lemma {:induction false} DaysBeforeMonthNonNegative(y: int, m: int)
    requires 1 <= m <= 12
    ensures DaysBeforeMonth(y, m) >= 0
  {
    if m > 1 {
      DaysBeforeMonthNonNegative(y, m - 1);
    }
  }

  /** A datetime is at least as late as the first instant of its year. */
  lemma MicrosFromYearStart(t: DateTime)
    ensures Micros(t) >= DaysBeforeYear(t.year) * 86400 * MicrosPerSecond
  {
    DaysBeforeMonthNonNegative(t.year, t.month);
    var days := DaysBeforeYear(t.year) + DaysBeforeMonth(t.year, t.month) + t.day - 1;
    assert days >= DaysBeforeYear(t.year);
    var v := ((days * 24 + t.hour) * 60 + t.minute) * 60;
    assert v >= days * 86400;
    assert v * MicrosPerSecond >= days * 86400 * MicrosPerSecond;
    assert days * 86400 * MicrosPerSecond >= DaysBeforeYear(t.year) * 86400 * MicrosPerSecond;
  }
}
