/**
 * The proleptic Gregorian calendar of Python's `datetime` module: ordinals
 * (`date.toordinal`), the 12-hour shift of `datetime + timedelta(hours=12)`,
 * the "days since 1970-01-01 00:00:00 UTC" encoding of `date2num`, and the
 * `strftime` layouts the transcoder writes.
 */
module Calendar {
  import opened Wrappers
  import opened PyText

  datatype Date = Date(year: int, month: int, day: int)

  /** A `datetime` of this program: minutes, seconds and microseconds are always
      zero, so only the hour is kept. */
  datatype DateTime = DateTime(date: Date, hour: int)

  /** `datetime.MINYEAR` and `datetime.MAXYEAR`. */
  const MinYear: int := 1
  const MaxYear: int := 9999

  predicate IsLeap(y: int) {
    y % 4 == 0 && (y % 100 != 0 || y % 400 == 0)
  }

  function DaysInYear(y: int): int {
    if IsLeap(y) then 366 else 365
  }

  function DaysInMonth(y: int, m: int): int
    requires 1 <= m <= 12
  {
    if m == 2 then (if IsLeap(y) then 29 else 28)
    else if m == 4 || m == 6 || m == 9 || m == 11 then 30
    else 31
  }

  /** A calendar date from year 1 on; `InRange` adds Python's upper year bound. */
  predicate WellFormed(d: Date) {
    d.year >= MinYear && 1 <= d.month <= 12 && 1 <= d.day <= DaysInMonth(d.year, d.month)
  }

  predicate InRange(d: Date) {
    WellFormed(d) && d.year <= MaxYear
  }

  /** Python's `_DAYS_BEFORE_MONTH` table with its leap-day adjustment; month 13
      stands for the end of the year. */
  function DaysBeforeMonth(y: int, m: int): int
    requires 1 <= m <= 13
  {
    [0, 31, 59, 90, 120, 151, 181, 212, 243, 273, 304, 334, 365][m - 1]
    + (if m > 2 && IsLeap(y) then 1 else 0)
  }

  /** Python's `_days_before_year`. */
  function DaysBeforeYear(y: int): int
    requires y >= 1
  {
    var p := y - 1;
    p * 365 + p / 4 - p / 100 + p / 400
  }

  /** `date.toordinal()`: 0001-01-01 is day 1. */
  function Ordinal(d: Date): int
    requires d.year >= 1 && 1 <= d.month <= 12
  {
    DaysBeforeYear(d.year) + DaysBeforeMonth(d.year, d.month) + d.day
  }

  const Epoch: Date := Date(1970, 1, 1)

  /** Whole days from 1970-01-01 to `d`. */
  function DaysSinceEpoch(d: Date): int
    requires d.year >= 1 && 1 <= d.month <= 12
  {
    Ordinal(d) - Ordinal(Epoch)
  }

  lemma MonthStep(y: int, m: int)
    requires 1 <= m <= 12
    ensures DaysBeforeMonth(y, m + 1) == DaysBeforeMonth(y, m) + DaysInMonth(y, m)
  {
  }

  lemma YearStep(y: int)
    requires y >= 1
    ensures DaysBeforeYear(y + 1) == DaysBeforeYear(y) + DaysInYear(y)
  {
    var p := y - 1;
    assert y / 4 == p / 4 + (if y % 4 == 0 then 1 else 0);
    assert y / 100 == p / 100 + (if y % 100 == 0 then 1 else 0);
    assert y / 400 == p / 400 + (if y % 400 == 0 then 1 else 0);
  }

  /** The date `doy - 1` days after the first of month `m` of year `y`. */
  function MonthAndDay(y: int, doy: int, m: int): (d: Date)
    requires y >= 1 && 1 <= m <= 12 && 1 <= doy
    requires DaysBeforeMonth(y, m) + doy <= DaysInYear(y)
    ensures WellFormed(d) && d.year == y && d.month >= m
    ensures DaysBeforeMonth(y, d.month) + d.day == DaysBeforeMonth(y, m) + doy
    decreases 12 - m
  {
    if doy <= DaysInMonth(y, m) then Date(y, m, doy)
    else
      MonthStep(y, m);
      MonthAndDay(y, doy - DaysInMonth(y, m), m + 1)
  }

  /** The date of day `doy` of year `y`, as `strptime` computes it for `%j`:
      `fromordinal(doy - 1 + date(y, 1, 1).toordinal())`, so day 366 of a
      common year is 1 January of the next year. */
  function FromDayOfYear(y: int, doy: int): (d: Date)
    requires y >= 1 && 1 <= doy <= 366
    ensures WellFormed(d)
  {
    if doy > DaysInYear(y) then Date(y + 1, 1, doy - DaysInYear(y))
    else MonthAndDay(y, doy, 1)
  }

  /** The date `FromDayOfYear` returns has exactly the ordinal Python's formula
      asks for. */
  lemma FromDayOfYearOrdinal(y: int, doy: int)
    requires y >= 1 && 1 <= doy <= 366
    ensures Ordinal(FromDayOfYear(y, doy)) == Ordinal(Date(y, 1, 1)) + doy - 1
  {
    if doy > DaysInYear(y) {
      YearStep(y);
    }
  }

  /** Days of a year lie strictly between the ordinals of the year's boundaries. */
  lemma OrdinalWithinYear(d: Date)
    requires WellFormed(d)
    ensures DaysBeforeYear(d.year) < Ordinal(d) <= DaysBeforeYear(d.year + 1)
  {
    YearStep(d.year);
    MonthStep(d.year, d.month);
    assert DaysBeforeMonth(d.year, d.month + 1) <= DaysBeforeMonth(d.year, 13);
  }

  lemma {:induction false} DaysBeforeYearIncreasing(a: int, b: int)
    requires 1 <= a < b
    ensures DaysBeforeYear(a + 1) <= DaysBeforeYear(b)
    decreases b - a
  {
    if a + 1 < b {
      DaysBeforeYearIncreasing(a + 1, b);
      YearStep(a + 1);
    }
  }

  /** Different dates have different ordinals, so a date is determined by its
      ordinal and `FromDayOfYear` is Python's `fromordinal` on its argument. */
  lemma OrdinalInjective(d1: Date, d2: Date)
    requires WellFormed(d1) && WellFormed(d2)
    requires Ordinal(d1) == Ordinal(d2)
    ensures d1 == d2
  {
    OrdinalWithinYear(d1);
    OrdinalWithinYear(d2);
    if d1.year < d2.year {
      DaysBeforeYearIncreasing(d1.year, d2.year);
    } else if d2.year < d1.year {
      DaysBeforeYearIncreasing(d2.year, d1.year);
    }
    assert d1.year == d2.year;
    var y := d1.year;
    if d1.month != d2.month {
      var lo := if d1.month < d2.month then d1 else d2;
      var hi := if d1.month < d2.month then d2 else d1;
      MonthStep(y, lo.month);
      MonthsIncreasing(y, lo.month + 1, hi.month);
    }
  }

  lemma {:induction false} MonthsIncreasing(y: int, a: int, b: int)
    requires 1 <= a <= b <= 12
    ensures DaysBeforeMonth(y, a) <= DaysBeforeMonth(y, b)
    decreases b - a
  {
    if a < b {
      MonthStep(y, a);
      MonthsIncreasing(y, a + 1, b);
    }
  }

  /** The day after `d`. */
  function NextDay(d: Date): (e: Date)
    requires WellFormed(d)
    ensures WellFormed(e)
  {
    if d.day < DaysInMonth(d.year, d.month) then Date(d.year, d.month, d.day + 1)
    else if d.month < 12 then Date(d.year, d.month + 1, 1)
    else Date(d.year + 1, 1, 1)
  }

  lemma NextDayOrdinal(d: Date)
    requires WellFormed(d)
    ensures Ordinal(NextDay(d)) == Ordinal(d) + 1
  {
    MonthStep(d.year, d.month);
    if d.month == 12 && d.day == DaysInMonth(d.year, d.month) {
      YearStep(d.year);
    }
  }

  predicate ValidDateTime(t: DateTime) {
    InRange(t.date) && 0 <= t.hour < 24
  }

  /** `t + timedelta(hours=h)` for `0 <= h < 24`; `None` is Python's OverflowError
      past 9999-12-31. */
  function AddHours(t: DateTime, h: int): Option<DateTime>
    requires ValidDateTime(t) && 0 <= h < 24
  {
    if t.hour + h < 24 then Some(DateTime(t.date, t.hour + h))
    else if t.date.year == MaxYear && t.date.month == 12 && t.date.day == 31 then None
    else Some(DateTime(NextDay(t.date), t.hour + h - 24))
  }

  /** Hours from 1970-01-01T00:00:00 to `t`. */
  function HoursSinceEpoch(t: DateTime): int
    requires WellFormed(t.date)
  {
    DaysSinceEpoch(t.date) * 24 + t.hour
  }

  /** Adding `h` hours moves a timestamp exactly `h` hours later, and fails only
      past the last representable day. */
  lemma AddHoursElapsed(t: DateTime, h: int)
    requires ValidDateTime(t) && 0 <= h < 24
    ensures AddHours(t, h).None? <==> t.hour + h >= 24 && t.date == Date(MaxYear, 12, 31)
    ensures AddHours(t, h).Some? ==>
              ValidDateTime(AddHours(t, h).value)
              && HoursSinceEpoch(AddHours(t, h).value) == HoursSinceEpoch(t) + h
  {
    if t.hour + h >= 24 && t.date != Date(MaxYear, 12, 31) {
      NextDayOrdinal(t.date);
    }
  }

  /** `date2num(t, "days since 1970-01-01 00:00:00 UTC")`: elapsed days, with the
      hour as a fraction of a day. */
  function DateNum(t: DateTime): (v: real)
    requires WellFormed(t.date)
  {
    (HoursSinceEpoch(t) as real) / 24.0
  }

  /** For a noon timestamp the encoding is the day count plus one half, so its
      whole part is the date's day count. */
  lemma DateNumAtNoon(d: Date)
    requires WellFormed(d)
    ensures DateNum(DateTime(d, 12)) == DaysSinceEpoch(d) as real + 0.5
    ensures DateNum(DateTime(d, 12)).Floor == DaysSinceEpoch(d)
  {
  }

  /** `strftime("%Y-%m-%d")`, with the year zero-padded to four digits. */
  function IsoDate(d: Date): (s: string)
    requires InRange(d)
    ensures |s| == 10
  {
    Padded(d.year, 4) + "-" + Padded(d.month, 2) + "-" + Padded(d.day, 2)
  }

  /** `strftime("%Y-%m-%dT%H:%M:%S")` of a timestamp on the hour. */
  function IsoDateTime(t: DateTime): string
    requires ValidDateTime(t)
  {
    IsoDate(t.date) + "T" + Padded(t.hour, 2) + ":00:00"
  }

  /** A timestamp at midnight is written with a `T00:00:00` time part. */
  lemma MidnightIso(d: Date)
    requires InRange(d)
    ensures IsoDateTime(DateTime(d, 0)) == IsoDate(d) + "T00:00:00"
  {
    assert Padded(0, 2) == "00";
  }
}
