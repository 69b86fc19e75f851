/**
 * `datetime.strptime` for the three formats the transcoder reads:
 * `%Y_%j` (the filename stamp), `%d-%b-%Y` and `%Y-%m-%d` (the history line).
 *
 * CPython turns a format into a regular expression and accepts a string when
 * `re.match` finds a match that ends exactly at the end of the string (any
 * leftover is "unconverted data remains"); the fields are then checked by
 * constructing the date.  The directives used here are
 *   %Y  `\d\d\d\d`
 *   %m  `1[0-2]|0[1-9]|[1-9]`
 *   %d  `3[01]|[12]\d|0[1-9]|[1-9]| [1-9]`
 *   %j  `36[0-6]|3[0-5]\d|[12]\d\d|0[1-9]\d|00[1-9]|[1-9]\d|0[1-9]|[1-9]`
 *   %b  the locale's abbreviated month names, matched ignoring case.
 * Because the alternatives are tried in order and the whole string must be
 * consumed, each field accepts exactly the tokens the `...Field` functions
 * below accept; all failures are Python's ValueError, here `None`.
 */
module Strptime {
  import opened Wrappers
  import opened PyText
  import opened Calendar

  /** %Y: exactly four digits. */
  function YearField(t: string): (r: Option<int>)
    ensures r.Some? ==> 0 <= r.value <= MaxYear
  {
    if |t| == 4 && AllDigits(t) then DecimalBound(t); Some(Decimal(t)) else None
  }

  /** %m: one digit 1-9, or two digits from 01 to 12. */
  function MonthField(t: string): Option<int> {
    if |t| == 1 && '1' <= t[0] <= '9' then Some(DigitValue(t[0]))
    else if |t| == 2 && AllDigits(t) && 1 <= Decimal(t) <= 12 then Some(Decimal(t))
    else None
  }

  /** %d: one digit 1-9, a space and a digit 1-9, or two digits from 01 to 31. */
  function DayField(t: string): Option<int> {
    if |t| == 1 && '1' <= t[0] <= '9' then Some(DigitValue(t[0]))
    else if |t| == 2 && t[0] == ' ' && '1' <= t[1] <= '9' then Some(DigitValue(t[1]))
    else if |t| == 2 && AllDigits(t) && 1 <= Decimal(t) <= 31 then Some(Decimal(t))
    else None
  }

  /** %j: one to three digits denoting 1 to 366. */
  function DayOfYearField(t: string): Option<int> {
    if 1 <= |t| <= 3 && AllDigits(t) && 1 <= Decimal(t) <= 366 then Some(Decimal(t)) else None
  }

  /** The abbreviated month names of the C locale. */
  const MonthNames: seq<string> :=
    ["Jan", "Feb", "Mar", "Apr", "May", "Jun", "Jul", "Aug", "Sep", "Oct", "Nov", "Dec"]

  /** %b: the number of the first month whose name equals `t` ignoring case. */
  function AbbreviatedMonthField(t: string): (r: Option<int>)
    ensures r.Some? ==> 1 <= r.value <= 12 && EqualsIgnoringCase(t, MonthNames[r.value - 1])
  {
    MonthNamedFrom(t, 0)
  }

  function MonthNamedFrom(t: string, i: nat): (r: Option<int>)
    requires i <= 12
    ensures r.Some? ==> i < r.value <= 12 && EqualsIgnoringCase(t, MonthNames[r.value - 1])
    decreases 12 - i
  {
    if i == 12 then None
    else if EqualsIgnoringCase(t, MonthNames[i]) then Some(i + 1)
    else MonthNamedFrom(t, i + 1)
  }

  /** `datetime(y, m, d)`: ValueError unless the year is at least 1 and the day
      exists in that month. */
  function Validated(y: int, m: int, d: int): (r: Option<DateTime>)
    requires 0 <= y <= MaxYear && 1 <= m <= 12
    ensures r.Some? <==> y >= MinYear && 1 <= d <= DaysInMonth(y, m)
    ensures r.Some? ==> r.value == DateTime(Date(y, m, d), 0) && ValidDateTime(r.value)
  {
    if y >= MinYear && 1 <= d <= DaysInMonth(y, m) then Some(DateTime(Date(y, m, d), 0)) else None
  }

  /** `strptime(s, "%Y_%j")`: the `(doy - 1)`-th day after 1 January of the year,
      which must still be a representable date. */
  function ParseYearDayOfYear(s: string): (r: Option<DateTime>)
    ensures r.Some? ==> ValidDateTime(r.value) && r.value.hour == 0
  {
    if |s| < 6 || s[4] != '_' then None
    else
      match (YearField(s[..4]), DayOfYearField(s[5..]))
      case (Some(y), Some(doy)) =>
        if y < MinYear then None
        else
          var d := FromDayOfYear(y, doy);
          if d.year > MaxYear then None else Some(DateTime(d, 0))
      case _ => None
  }

  /** `strptime(s, "%d-%b-%Y")`. */
  function ParseDayMonthYear(s: string): (r: Option<DateTime>)
    ensures r.Some? ==> ValidDateTime(r.value) && r.value.hour == 0
  {
    if |s| != 10 && |s| != 11 then None
    else
      var k := |s| - 9;
      if s[k] != '-' || s[k + 4] != '-' then None
      else
        match (DayField(s[..k]), AbbreviatedMonthField(s[k + 1..k + 4]), YearField(s[k + 5..]))
        case (Some(d), Some(m), Some(y)) => Validated(y, m, d)
        case _ => None
  }

  /** `strptime(s, "%Y-%m-%d")`; the month has one or two digits, so the second
      dash stands at index 6 or 7. */
  function ParseYearMonthDay(s: string): (r: Option<DateTime>)
    ensures r.Some? ==> ValidDateTime(r.value) && r.value.hour == 0
  {
    if |s| < 8 || s[4] != '-' then None
    else
      var k := if s[6] == '-' then 6 else 7;
      if s[k] != '-' then None
      else
        match (YearField(s[..4]), MonthField(s[5..k]), DayField(s[k + 1..]))
        case (Some(y), Some(m), Some(d)) => Validated(y, m, d)
        case _ => None
  }

  /** A stamp as `strftime("%Y_%j")` would write it. */
  function YearDayStamp(y: nat, doy: nat): string {
    Padded(y, 4) + "_" + Padded(doy, 3)
  }

  /** A date as `strftime("%d-%b-%Y")` writes it, e.g. `05-Jan-2019`. */
  function DayMonthYear(d: Date): string
    requires InRange(d)
  {
    Padded(d.day, 2) + "-" + MonthNames[d.month - 1] + "-" + Padded(d.year, 4)
  }

  /** Each month's abbreviation as the C locale writes it gives that month. */
  lemma MonthNameFound(m: int)
    requires 1 <= m <= 12
    ensures AbbreviatedMonthField(MonthNames[m - 1]) == Some(m)
  {
    var t := MonthNames[m - 1];
    forall i | 0 <= i < m - 1
      ensures !EqualsIgnoringCase(t, MonthNames[i])
    {
      if MonthNames[i][0] == t[0] {
        if MonthNames[i][1] == t[1] {
          assert AsciiLower(MonthNames[i][2]) != AsciiLower(t[2]);
        } else {
          assert AsciiLower(MonthNames[i][1]) != AsciiLower(t[1]);
        }
      } else {
        assert AsciiLower(MonthNames[i][0]) != AsciiLower(t[0]);
      }
    }
    NamedFromSkips(t, 0, m - 1);
  }

  /** Two strings that differ only in letter case find the same month. */
  lemma {:induction false} FoldedAlike(t: string, u: string, i: nat)
    requires EqualsIgnoringCase(t, u) && i <= 12
    ensures MonthNamedFrom(t, i) == MonthNamedFrom(u, i)
    decreases 12 - i
  {
    if i < 12 {
      assert EqualsIgnoringCase(t, MonthNames[i]) <==> EqualsIgnoringCase(u, MonthNames[i]);
      FoldedAlike(t, u, i + 1);
    }
  }

  /** `%b` is case-insensitive: any spelling of a month's abbreviation that
      differs from it only in letter case (`JAN`, `jAn`) gives that month. */
  lemma CaseVariantFound(t: string, m: int)
    requires 1 <= m <= 12 && EqualsIgnoringCase(t, MonthNames[m - 1])
    ensures AbbreviatedMonthField(t) == Some(m)
  {
    FoldedAlike(t, MonthNames[m - 1], 0);
    MonthNameFound(m);
  }

  lemma {:induction false} NamedFromSkips(t: string, i: nat, j: nat)
    requires i <= j < 12 && EqualsIgnoringCase(t, MonthNames[j])
    requires forall k :: i <= k < j ==> !EqualsIgnoringCase(t, MonthNames[k])
    ensures MonthNamedFrom(t, i) == Some(j + 1)
    decreases j - i
  {
    if i < j {
      NamedFromSkips(t, i + 1, j);
    }
  }

  /** The filename stamp of year `y` and day `doy` reads as day `doy` of `y`,
      so `..._2017_077.nc` stands for 2017-03-18. */
  lemma YearDayStampRead(y: nat, doy: nat)
    requires MinYear <= y <= MaxYear && 1 <= doy <= 366
    ensures var d := FromDayOfYear(y, doy);
      ParseYearDayOfYear(YearDayStamp(y, doy)) == if d.year <= MaxYear then Some(DateTime(d, 0)) else None
  {
    var s := YearDayStamp(y, doy);
    assert s[..4] == Padded(y, 4);
    assert s[5..] == Padded(doy, 3);
    DecimalOfPadded(y, 4);
    DecimalOfPadded(doy, 3);
  }

  /** Reading back a `%d-%b-%Y` rendering gives the date at midnight. */
  lemma DayMonthYearRead(d: Date)
    requires InRange(d)
    ensures ParseDayMonthYear(DayMonthYear(d)) == Some(DateTime(d, 0))
  {
    var s := DayMonthYear(d);
    assert s[..2] == Padded(d.day, 2);
    assert s[3..6] == MonthNames[d.month - 1];
    assert s[7..] == Padded(d.year, 4);
    DecimalOfPadded(d.day, 2);
    DecimalOfPadded(d.year, 4);
    MonthNameFound(d.month);
  }

  /** Reading back a `%Y-%m-%d` rendering gives the date at midnight. */
  lemma IsoDateRead(d: Date)
    requires InRange(d)
    ensures ParseYearMonthDay(IsoDate(d)) == Some(DateTime(d, 0))
  {
    var s := IsoDate(d);
    assert s[..4] == Padded(d.year, 4);
    assert s[5..7] == Padded(d.month, 2);
    assert s[8..] == Padded(d.day, 2);
    DecimalOfPadded(d.year, 4);
    DecimalOfPadded(d.month, 2);
    DecimalOfPadded(d.day, 2);
  }

  /** A string that starts like `%Y-%m-%d` never matches `%d-%b-%Y`: a day
      field is followed by a dash within its first three characters, where a
      year has digits. */
  lemma IsoPrefixIsNotDayMonthYear(s: string)
    requires |s| >= 4 && AllDigits(s[..4])
    ensures ParseDayMonthYear(s) == None
  {
    if |s| == 10 || |s| == 11 {
      assert IsDigit(s[..4][|s| - 9]);
    }
  }
}
