/**
 * The part of .NET's DateTimeOffset that the SAS builder relies on: a local
 * clock reading plus an offset from UTC, the equality against the default
 * value / MinValue (which .NET decides on the UTC instant), and the
 * zero-padded decimal fields of a custom format string.
 */
module DotNetTime {

  predicate IsLeapYear(year: int) {
    year % 4 == 0 && (year % 100 != 0 || year % 400 == 0)
  }

  function DaysInMonth(year: int, month: int): int {
    if month == 2 then (if IsLeapYear(year) then 29 else 28)
    else if month == 4 || month == 6 || month == 9 || month == 11 then 30
    else 31
  }

  /** The fields of a DateTimeOffset: the local clock reading, the sub-second part
      in 100-nanosecond ticks, and the offset from UTC in whole minutes. */
  datatype DateTimeParts = DateTimeParts(
    year: int, month: int, day: int,
    hour: int, minute: int, second: int,
    ticks: int, offsetMinutes: int)

  /** What .NET guarantees of every DateTimeOffset: a real calendar date and time, an
      offset of at most 14 hours, and a UTC instant inside years 1 to 9999. */
  predicate ValidParts(t: DateTimeParts) {
    1 <= t.year <= 9999 && 1 <= t.month <= 12 && 1 <= t.day <= DaysInMonth(t.year, t.month)
    && 0 <= t.hour < 24 && 0 <= t.minute < 60 && 0 <= t.second < 60
    && 0 <= t.ticks < 10_000_000
    && -840 <= t.offsetMinutes <= 840
    && (t.year == 1 && t.month == 1 && t.day == 1 ==> t.hour * 60 + t.minute >= t.offsetMinutes)
    && (t.year == 9999 && t.month == 12 && t.day == 31 ==> t.hour * 60 + t.minute - t.offsetMinutes < 1440)
  }

  type DateTimeOffset = t: DateTimeParts | ValidParts(t) witness DateTimeParts(1, 1, 1, 0, 0, 0, 0, 0)

  /** DateTimeOffset.MinValue, which is also `default(DateTimeOffset)` and `new DateTimeOffset()`. */
  const MinValue: DateTimeOffset := DateTimeParts(1, 1, 1, 0, 0, 0, 0, 0)

  /** Days from 0001-01-01 to the first day of `year` in the proleptic Gregorian calendar. */
  function DaysBeforeYear(year: int): (r: nat)
    requires year >= 1
    ensures year > 1 ==> r >= 365
  {
    if year == 1 then 0 else DaysBeforeYear(year - 1) + (if IsLeapYear(year - 1) then 366 else 365)
  }

  /** Days from the first of the year to the first day of `month`. */
  function DaysBeforeMonth(year: int, month: int): (r: nat)
    requires 1 <= month <= 12
    ensures month > 1 ==> r >= 28
  {
    if month == 1 then 0 else DaysBeforeMonth(year, month - 1) + DaysInMonth(year, month - 1)
  }

  /** Whole days from 0001-01-01 to the local date of `t`; zero only on that first day. */
  function LocalDays(t: DateTimeOffset): (d: int)
    ensures d >= 0
    ensures d == 0 <==> t.year == 1 && t.month == 1 && t.day == 1
  {
    DaysBeforeYear(t.year) + DaysBeforeMonth(t.year, t.month) + t.day - 1
  }

  /**
   * Whole minutes from 0001-01-01T00:00Z to the UTC instant of `t`. Never negative,
   * since a valid value lies inside year 1; zero only when the local reading on the
   * first day is exactly the offset.
   */
  function UtcMinutes(t: DateTimeOffset): (m: int)
    ensures m >= 0
    ensures m == 0 <==> t.year == 1 && t.month == 1 && t.day == 1 && t.hour * 60 + t.minute == t.offsetMinutes
  {
    LocalDays(t) * 1440 + t.hour * 60 + t.minute - t.offsetMinutes
  }

  /** The UTC instant of `t`, in 100-nanosecond ticks since 0001-01-01T00:00Z (DateTimeOffset.UtcTicks). */
  function UtcTicks(t: DateTimeOffset): int {
    (UtcMinutes(t) * 60 + t.second) * 10_000_000 + t.ticks
  }

  /** A tick count built from non-negative minutes, a second and a sub-second part is zero only when all three are. */
  lemma TickCountZero(minutes: int, second: int, ticks: int)
    requires minutes >= 0 && 0 <= second < 60 && 0 <= ticks < 10_000_000
    ensures (minutes * 60 + second) * 10_000_000 + ticks == 0 <==> minutes == 0 && second == 0 && ticks == 0
  {
  }

  /**
   * `t == DateTimeOffset.MinValue` (equally `t == default`): .NET compares the UTC
   * instants, so this holds exactly when the local reading is 0001-01-01 at
   * midnight plus the offset, with no seconds and no ticks.
   */
  predicate EqualsMinValue(t: DateTimeOffset) {
    t.year == 1 && t.month == 1 && t.day == 1
    && t.hour * 60 + t.minute == t.offsetMinutes
    && t.second == 0 && t.ticks == 0
  }

  /**
   * The test is .NET's `==`: it holds exactly when `t` is the same UTC instant as
   * MinValue, which is tick 0, 0001-01-01T00:00Z.
   */
  lemma EqualsMinValueIsSameInstant(t: DateTimeOffset)
    ensures EqualsMinValue(t) <==> UtcTicks(t) == 0
  {
    TickCountZero(UtcMinutes(t), t.second, t.ticks);
  }

  /** The test agrees with structural equality at offset zero, and MinValue passes it;
      at a positive offset a reading other than MinValue's passes it too. */
  lemma EqualsMinValueAtOffsetZero(t: DateTimeOffset)
    ensures EqualsMinValue(MinValue)
    ensures t.offsetMinutes == 0 ==> (EqualsMinValue(t) <==> t == MinValue)
  {
    if t.offsetMinutes == 0 && EqualsMinValue(t) {
      assert t.hour == 0 && t.minute == 0;
    }
  }

  /** One hour past midnight at offset +01:00 is the same instant as MinValue. */
  lemma EqualsMinValueAtPositiveOffset()
    ensures ValidParts(DateTimeParts(1, 1, 1, 1, 0, 0, 0, 60))
    ensures EqualsMinValue(DateTimeParts(1, 1, 1, 1, 0, 0, 0, 60))
  {
    assert DaysInMonth(1, 1) == 31;
  }

  function Pow10(n: nat): (r: nat)
    ensures r >= 1
  {
    if n == 0 then 1 else 10 * Pow10(n - 1)
  }

  predicate IsDigit(c: char) {
    '0' as int <= c as int <= '9' as int
  }

  function DigitChar(d: nat): (c: char)
    requires d < 10
    ensures IsDigit(c) && c as int - '0' as int == d
  {
    ('0' as int + d) as char
  }

  /** The decimal value of a string of digits. */
  function DigitsValue(s: string): (n: nat)
    requires forall i :: 0 <= i < |s| ==> IsDigit(s[i])
  {
    if |s| == 0 then 0
    else
      assert IsDigit(s[|s| - 1]);
      10 * DigitsValue(s[..|s| - 1]) + (s[|s| - 1] as int - '0' as int)
  }

  /** `n` in exactly `width` decimal digits, zero-padded on the left, as the custom
      format specifiers "yyyy", "MM", "dd", "HH", "mm" and "ss" render a field. */
  function Pad(n: nat, width: nat): (r: string)
    requires n < Pow10(width)
    ensures |r| == width
  {
    if width == 0 then ""
    else Pad(n / 10, width - 1) + [DigitChar(n % 10)]
  }

  /** Padding writes only digits, and reading them back gives the number. */
  lemma {:induction false} PadDigits(n: nat, width: nat)
    requires n < Pow10(width)
    ensures forall i :: 0 <= i < width ==> IsDigit(Pad(n, width)[i])
    ensures DigitsValue(Pad(n, width)) == n
    decreases width
  {
    if width > 0 {
      PadDigits(n / 10, width - 1);
      var r := Pad(n, width);
      assert r[..width - 1] == Pad(n / 10, width - 1);
    }
  }
}
