/**
 * The proleptic Gregorian calendar that chrono implements, reduced to what the crates
 * use: a `DateTime<Utc>` is an integer count of milliseconds since 1970-01-01T00:00:00Z,
 * dates are (year, month, day) triples, and the two are related by DaysFromCivil and
 * CivilFromDays, proved inverse to each other.
 */
module Civil {
  import opened Text

  /** chrono's `NaiveDate` range: years `i32::MIN >> 13` ..= `i32::MAX >> 13`. */
  const MIN_YEAR: int := -262144
  const MAX_YEAR: int := 262143

  const MS_PER_SECOND: int := 1000
  const MS_PER_DAY: int := 86_400_000

  datatype Date = Date(year: int, month: int, day: int)

  predicate IsLeap(y: int) {
    y % 4 == 0 && (y % 100 != 0 || y % 400 == 0)
  }

  function DaysInYear(y: int): nat {
    if IsLeap(y) then 366 else 365
  }

  function DaysInMonth(y: int, m: int): nat
    requires 1 <= m <= 12
  {
    if m == 2 then (if IsLeap(y) then 29 else 28)
    else if m == 4 || m == 6 || m == 9 || m == 11 then 30
    else 31
  }

  /** A real calendar day, whatever the year. */
  predicate WellFormed(dt: Date) {
    1 <= dt.month <= 12 && 1 <= dt.day <= DaysInMonth(dt.year, dt.month)
  }

  /** What `NaiveDate::from_ymd_opt` accepts. */
  predicate ValidDate(dt: Date) {
    WellFormed(dt) && MIN_YEAR <= dt.year <= MAX_YEAR
  }

  // ---------------------------------------------------------------- days from civil

  /** Leap years in 1..y-1 (floored, so it is also right for y <= 0 as a difference). */
  function LeapsBefore(y: int): int {
    (y - 1) / 4 - (y - 1) / 100 + (y - 1) / 400
  }

  /** Days from 1970-01-01 to January 1st of year `y`. */
  function DaysBeforeYear(y: int): int {
    365 * (y - 1970) + LeapsBefore(y) - LeapsBefore(1970)
  }

  function DaysBeforeMonth(y: int, m: int): nat
    requires 1 <= m <= 13
  {
    if m == 1 then 0 else DaysBeforeMonth(y, m - 1) + DaysInMonth(y, m - 1)
  }

  /** Days from 1970-01-01 to the given date (negative before it). */
  function DaysFromCivil(dt: Date): int
    requires WellFormed(dt)
  {
    DaysBeforeYear(dt.year) + DaysBeforeMonth(dt.year, dt.month) + dt.day - 1
  }

  lemma DivStep(x: int)
    ensures (x + 1) / 4 == x / 4 + (if (x + 1) % 4 == 0 then 1 else 0)
    ensures (x + 1) / 100 == x / 100 + (if (x + 1) % 100 == 0 then 1 else 0)
    ensures (x + 1) / 400 == x / 400 + (if (x + 1) % 400 == 0 then 1 else 0)
  {
  }

  /** A year lasts exactly DaysInYear days. */
  lemma YearStep(y: int)
    ensures DaysBeforeYear(y + 1) == DaysBeforeYear(y) + DaysInYear(y)
  {
    DivStep(y - 1);
    var q4, q100, q400 := if y % 4 == 0 then 1 else 0, if y % 100 == 0 then 1 else 0, if y % 400 == 0 then 1 else 0;
    assert LeapsBefore(y + 1) == LeapsBefore(y) + q4 - q100 + q400;
    DivisorsOfCentury(y);
  }

  /** A multiple of 400 is one of 100, and a multiple of 100 one of 4. */
  lemma DivisorsOfCentury(y: int)
    ensures y % 400 == 0 ==> y % 100 == 0
    ensures y % 100 == 0 ==> y % 4 == 0
  {
    if y % 400 == 0 {
      MultipleOfProduct(y, 100, 4);
    }
    if y % 100 == 0 {
      MultipleOfProduct(y, 4, 25);
    }
  }

  /** A multiple of a * b is a multiple of a. */
  lemma MultipleOfProduct(y: int, a: int, b: int)
    requires 0 < a && 0 < b && y % (a * b) == 0
    ensures y % a == 0
  {
    var q := y / (a * b);
    assert y == (a * b) * q;
    assert y == a * (b * q);
    assert y / a == b * q;
  }

  /** The twelve months add up to the year. */
  lemma MonthsMakeYear(y: int)
    ensures DaysBeforeMonth(y, 13) == DaysInYear(y)
  {
    assert DaysBeforeMonth(y, 2) == 31;
    assert DaysBeforeMonth(y, 3) == 31 + DaysInMonth(y, 2);
    assert DaysBeforeMonth(y, 4) == DaysBeforeMonth(y, 3) + 31;
    assert DaysBeforeMonth(y, 5) == DaysBeforeMonth(y, 4) + 30;
    assert DaysBeforeMonth(y, 6) == DaysBeforeMonth(y, 5) + 31;
    assert DaysBeforeMonth(y, 7) == DaysBeforeMonth(y, 6) + 30;
    assert DaysBeforeMonth(y, 8) == DaysBeforeMonth(y, 7) + 31;
    assert DaysBeforeMonth(y, 9) == DaysBeforeMonth(y, 8) + 31;
    assert DaysBeforeMonth(y, 10) == DaysBeforeMonth(y, 9) + 30;
    assert DaysBeforeMonth(y, 11) == DaysBeforeMonth(y, 10) + 31;
    assert DaysBeforeMonth(y, 12) == DaysBeforeMonth(y, 11) + 30;
    assert DaysBeforeMonth(y, 13) == DaysBeforeMonth(y, 12) + 31;
  }

  lemma MonthsFillYear(y: int, m: int)
    requires 1 <= m <= 12
    ensures DaysBeforeMonth(y, m) + DaysInMonth(y, m) <= DaysInYear(y)
  {
    MonthsMakeYear(y);
    MonthsIncrease(y, m + 1, 13);
  }

  lemma {:induction false} YearsIncrease(a: int, b: int)
    requires a <= b
    ensures DaysBeforeYear(a) + 365 * (b - a) <= DaysBeforeYear(b)
    decreases b - a
  {
    if a < b {
      YearStep(a);
      YearsIncrease(a + 1, b);
    }
  }

  lemma {:induction false} MonthsIncrease(y: int, a: int, b: int)
    requires 1 <= a <= b <= 13
    ensures DaysBeforeMonth(y, a) + 28 * (b - a) <= DaysBeforeMonth(y, b)
    decreases b - a
  {
    if a < b {
      MonthsIncrease(y, a, b - 1);
    }
  }

  // ---------------------------------------------------------------- civil from days

  function FindYearUp(y: int, z: int): (r: int)
    requires DaysBeforeYear(y) <= z
    ensures DaysBeforeYear(r) <= z < DaysBeforeYear(r + 1)
    decreases z - DaysBeforeYear(y)
  {
    YearStep(y);
    if z < DaysBeforeYear(y + 1) then y else FindYearUp(y + 1, z)
  }

  function FindYearDown(y: int, z: int): (r: int)
    requires z < DaysBeforeYear(y + 1)
    ensures DaysBeforeYear(r) <= z < DaysBeforeYear(r + 1)
    decreases DaysBeforeYear(y + 1) - z
  {
    YearStep(y);
    if DaysBeforeYear(y) <= z then y else FindYearDown(y - 1, z)
  }

  /** The year containing day `z`. */
  function YearOfDay(z: int): (r: int)
    ensures DaysBeforeYear(r) <= z < DaysBeforeYear(r + 1)
  {
    if z >= 0 then FindYearUp(1970, z) else FindYearDown(1969, z)
  }

  function FindMonth(y: int, m: int, doy: int): (r: int)
    requires 1 <= m <= 12 && DaysBeforeMonth(y, m) <= doy < DaysInYear(y)
    ensures m <= r <= 12
    ensures DaysBeforeMonth(y, r) <= doy < DaysBeforeMonth(y, r) + DaysInMonth(y, r)
    decreases 12 - m
  {
    MonthsMakeYear(y);
    if doy < DaysBeforeMonth(y, m + 1) || m == 12 then m else FindMonth(y, m + 1, doy)
  }

  /** The calendar date of day `z` counted from 1970-01-01. */
  function CivilFromDays(z: int): (dt: Date)
    ensures WellFormed(dt)
    ensures DaysFromCivil(dt) == z
  {
    var y := YearOfDay(z);
    var doy := z - DaysBeforeYear(y);
    YearStep(y);
    var m := FindMonth(y, 1, doy);
    Date(y, m, doy - DaysBeforeMonth(y, m) + 1)
  }

  /** Each day lies in exactly one year. */
  lemma YearOfDayUnique(y1: int, y2: int, z: int)
    requires DaysBeforeYear(y1) <= z < DaysBeforeYear(y1 + 1)
    requires DaysBeforeYear(y2) <= z < DaysBeforeYear(y2 + 1)
    ensures y1 == y2
  {
    if y1 < y2 {
      YearsIncrease(y1 + 1, y2);
    } else if y2 < y1 {
      YearsIncrease(y2 + 1, y1);
    }
  }

  /** Each day of a year lies in exactly one month. */
  lemma MonthOfDayUnique(y: int, m1: int, m2: int, doy: int)
    requires 1 <= m1 <= 12 && 1 <= m2 <= 12
    requires DaysBeforeMonth(y, m1) <= doy < DaysBeforeMonth(y, m1) + DaysInMonth(y, m1)
    requires DaysBeforeMonth(y, m2) <= doy < DaysBeforeMonth(y, m2) + DaysInMonth(y, m2)
    ensures m1 == m2
  {
    if m1 < m2 {
      MonthsIncrease(y, m1 + 1, m2);
    } else if m2 < m1 {
      MonthsIncrease(y, m2 + 1, m1);
    }
  }

  /** Different dates are different days. */
  lemma DaysFromCivilInjective(a: Date, b: Date)
    requires WellFormed(a) && WellFormed(b)
    requires DaysFromCivil(a) == DaysFromCivil(b)
    ensures a == b
  {
    var z := DaysFromCivil(a);
    MonthsFillYear(a.year, a.month);
    MonthsFillYear(b.year, b.month);
    YearStep(a.year);
    YearStep(b.year);
    YearOfDayUnique(a.year, b.year, z);
    MonthOfDayUnique(a.year, a.month, b.month, z - DaysBeforeYear(a.year));
  }

  /** CivilFromDays undoes DaysFromCivil (the other direction is its own ensures). */
  lemma CivilDaysRoundTrip(dt: Date)
    requires WellFormed(dt)
    ensures CivilFromDays(DaysFromCivil(dt)) == dt
  {
    DaysFromCivilInjective(CivilFromDays(DaysFromCivil(dt)), dt);
  }

  /** Calendar order is day order. */
  lemma DaysFromCivilMonotone(a: Date, b: Date)
    requires WellFormed(a) && WellFormed(b)
    requires a.year < b.year || (a.year == b.year && (a.month < b.month || (a.month == b.month && a.day < b.day)))
    ensures DaysFromCivil(a) < DaysFromCivil(b)
  {
    if a.year < b.year {
      WithinYear(a);
      WithinYear(b);
      YearsIncrease(a.year + 1, b.year);
    } else if a.month < b.month {
      MonthsFillYear(a.year, a.month);
      MonthsIncrease(a.year, a.month + 1, b.month);
    }
  }

  /** A date lies within its own year. */
  lemma WithinYear(dt: Date)
    requires WellFormed(dt)
    ensures DaysBeforeYear(dt.year) <= DaysFromCivil(dt) < DaysBeforeYear(dt.year + 1)
  {
    MonthsFillYear(dt.year, dt.month);
    YearStep(dt.year);
  }

  /** Every date chrono accepts lies within 10^8 days of the epoch. */
  lemma DaysFromCivilBound(dt: Date)
    requires ValidDate(dt)
    ensures -100_000_000 <= DaysFromCivil(dt) <= 100_000_000
  {
    var y := dt.year;
    assert -65537 <= (y - 1) / 4 <= 65536;
    assert -2622 <= (y - 1) / 100 <= 2622;
    assert -656 <= (y - 1) / 400 <= 656;
    assert DaysBeforeMonth(y, dt.month) <= 366 by {
      MonthsFillYear(y, dt.month);
    }
  }

  // ---------------------------------------------------------------- timestamps

  /** Milliseconds since the epoch of `hour:minute:second` on the given date (UTC). */
  function TimestampMs(dt: Date, hour: nat, minute: nat, second: nat): int
    requires WellFormed(dt)
  {
    DaysFromCivil(dt) * MS_PER_DAY + ((hour * 60 + minute) * 60 + second) * MS_PER_SECOND
  }

  /** The UTC date of a millisecond timestamp (days are floored, as chrono does). */
  function DateOfMs(ms: int): (dt: Date)
    ensures WellFormed(dt)
  {
    CivilFromDays(ms / MS_PER_DAY)
  }

  /** Whole days plus a time of day split back into the two (floored division). */
  lemma DaysAndTime(days: int, t: int, ms: int)
    requires 0 <= t < MS_PER_DAY && ms == days * MS_PER_DAY + t
    ensures ms / MS_PER_DAY == days && ms % MS_PER_DAY == t
  {
  }

  /** Two timestamps are on the same date exactly when they are in the same floored day. */
  lemma SameDate(a: int, b: int)
    ensures DateOfMs(a) == DateOfMs(b) <==> a / MS_PER_DAY == b / MS_PER_DAY
  {
    if DateOfMs(a) == DateOfMs(b) {
      assert DaysFromCivil(DateOfMs(a)) == a / MS_PER_DAY;
      assert DaysFromCivil(DateOfMs(b)) == b / MS_PER_DAY;
    }
  }

  lemma DateOfTimestamp(dt: Date, hour: nat, minute: nat, second: nat)
    requires WellFormed(dt) && hour < 24 && minute < 60 && second < 60
    ensures DateOfMs(TimestampMs(dt, hour, minute, second)) == dt
    ensures TimestampMs(dt, hour, minute, second) % MS_PER_DAY == ((hour * 60 + minute) * 60 + second) * MS_PER_SECOND
  {
    var t := ((hour * 60 + minute) * 60 + second) * MS_PER_SECOND;
    assert 0 <= t < MS_PER_DAY;
    DaysAndTime(DaysFromCivil(dt), t, TimestampMs(dt, hour, minute, second));
    CivilDaysRoundTrip(dt);
  }

  /**
   * A whole number of seconds as hours, minutes under 60 and seconds under 60
   * (`secs / 3600`, `secs % 3600 / 60`, `secs % 60`).
   */
  function HoursMinutesSeconds(secs: nat): (hms: (nat, nat, nat))
    ensures hms.0 * 3600 + hms.1 * 60 + hms.2 == secs
    ensures hms.1 < 60 && hms.2 < 60
  {
    (secs / 3600, secs % 3600 / 60, secs % 60)
  }

  /** The split is the only one with minutes and seconds under 60. */
  lemma HoursMinutesSecondsUnique(secs: nat, h: nat, m: nat, s: nat)
    requires h * 3600 + m * 60 + s == secs && m < 60 && s < 60
    ensures HoursMinutesSeconds(secs) == (h, m, s)
  {
    var hms := HoursMinutesSeconds(secs);
    assert m * 60 + s < 3600;
    assert hms.1 * 60 + hms.2 < 3600;
  }

  // ---------------------------------------------------------------- formatting

  /** Two digits with a leading zero (`{:02}`), for month, day, hour, minute, second. */
  function TwoDigits(n: nat): (s: string)
    requires n < 100
    ensures |s| == 2 && AllDigits(s) && ParseDigits(s) == n
  {
    var s := [DigitChar(n / 10), DigitChar(n % 10)];
    assert s[..1] == [s[0]] && s[..1][..0] == [];
    assert ParseDigits(s[..1]) == n / 10;
    s
  }

  /**
   * chrono's `%Y`: four digits, zero padded, for years 0..=9999; otherwise an explicit
   * sign and at least four digits.
   */
  function FormatYear(y: int): (s: string)
    ensures 0 <= y <= 9999 ==> |s| == 4 && AllDigits(s) && ParseDigits(s) == y
    ensures !(0 <= y <= 9999) ==> |s| >= 5 && s[0] == (if y < 0 then '-' else '+')
  {
    var abs: nat := if y < 0 then -y else y;
    var digits := PadZeros(NatToString(abs), 4);
    PadZerosValue(abs, 4);
    if 0 <= y <= 9999 then
      NatToStringLength(abs, 4);
      digits
    else (if y < 0 then "-" else "+") + digits
  }

  /** `%Y%m%d`. */
  function FormatYmd(dt: Date): (s: string)
    requires WellFormed(dt)
    ensures 0 <= dt.year <= 9999 ==> |s| == 8 && AllDigits(s)
  {
    FormatYear(dt.year) + TwoDigits(dt.month) + TwoDigits(dt.day)
  }

  /** An 8-digit `%Y%m%d` string spells the year, month and day back. */
  lemma FormatYmdDigits(dt: Date)
    requires WellFormed(dt) && 0 <= dt.year <= 9999
    ensures ParseDigits(FormatYmd(dt)[..4]) == dt.year
    ensures ParseDigits(FormatYmd(dt)[4..6]) == dt.month
    ensures ParseDigits(FormatYmd(dt)[6..]) == dt.day
  {
    var s := FormatYmd(dt);
    assert s[..4] == FormatYear(dt.year);
    assert s[4..6] == TwoDigits(dt.month);
    assert s[6..] == TwoDigits(dt.day);
  }

  /**
   * `DateTime::<Utc>::to_rfc3339` for a whole-millisecond instant:
   * "YYYY-MM-DDTHH:MM:SS[.mmm]+00:00", the fraction omitted when it is zero.
   */
  function Rfc3339(ms: int): (s: string)
    ensures |s| >= 25
  {
    var dt := DateOfMs(ms);
    var inDay := ms % MS_PER_DAY;
    var secs := inDay / 1000;
    var frac := inDay % 1000;
    var fraction := if frac == 0 then "" else "." + PadZeros(NatToString(frac), 3);
    FormatYear(dt.year) + "-" + TwoDigits(dt.month) + "-" + TwoDigits(dt.day)
      + "T" + TwoDigits(secs / 3600) + ":" + TwoDigits(secs / 60 % 60) + ":" + TwoDigits(secs % 60)
      + fraction + "+00:00"
  }
}
