/** Day numbers and calendar dates. `CivilFromDays` is the branch-free computation; the
    calendar it is measured against is the proleptic Gregorian one (section 3.2.1 of
    ISO 8601:2004), stated by its leap-year rule, its month lengths and its successor. */
module CivilDate {

  /** Division of the implementation's signed integers: towards zero. */
  function TruncDiv(a: int, b: int): int
    requires b > 0
  {
    if a >= 0 then a / b else -((-a) / b)
  }

  datatype Date = Date(year: int, month: int, day: int)

  function CivilFromDays(days: int): Date {
    var z := days + 719468;
    var era := TruncDiv(if z >= 0 then z else z - 146096, 146097);
    InEra(era, z - era * 146097)
  }

  /** The date of a day of a 400-year era; years of the era begin in March. */
  function InEra(era: int, doe: int): Date {
    var yoe := TruncDiv(doe - TruncDiv(doe, 1460) + TruncDiv(doe, 36524) - TruncDiv(doe, 146096), 365);
    var doy := doe - (365 * yoe + TruncDiv(yoe, 4) - TruncDiv(yoe, 100));
    var mp := TruncDiv(5 * doy + 2, 153);
    var day := doy - TruncDiv(153 * mp + 2, 5) + 1;
    var month := if mp < 10 then mp + 3 else mp - 9;
    var year := yoe + era * 400;
    Date(if month <= 2 then year + 1 else year, month, day)
  }

  // ---------------------------------------------------------------- the calendar

  predicate Leap(year: int) {
    year % 4 == 0 && (year % 100 != 0 || year % 400 == 0)
  }

  function MonthLength(year: int, month: int): int {
    if month == 2 then if Leap(year) then 29 else 28
    else if month == 4 || month == 6 || month == 9 || month == 11 then 30
    else 31
  }

  function YearDays(year: int): int {
    if Leap(year) then 366 else 365
  }

  predicate Valid(d: Date) {
    1 <= d.month <= 12 && 1 <= d.day <= MonthLength(d.year, d.month)
  }

  function NextDay(d: Date): Date {
    if d.day < MonthLength(d.year, d.month) then d.(day := d.day + 1)
    else if d.month < 12 then Date(d.year, d.month + 1, 1)
    else Date(d.year + 1, 1, 1)
  }

  /** Days from the first day of year 1 to the first day of `year`. */
  function DaysBeforeYear(year: int): int {
    365 * (year - 1) + (year - 1) / 4 - (year - 1) / 100 + (year - 1) / 400
  }

  function DaysBeforeMonth(year: int, month: int): int
    requires 1 <= month <= 12
  {
    if month == 1 then 0 else DaysBeforeMonth(year, month - 1) + MonthLength(year, month - 1)
  }

  /** The day number of a date, day 0 being 1970-01-01. */
  function DaysFromDate(d: Date): int
    requires Valid(d)
  {
    DaysBeforeYear(d.year) + DaysBeforeMonth(d.year, d.month) + d.day - 1 - 719162
  }

  /** The prefix sums of the month lengths. */
  lemma MonthTable(year: int)
    ensures var f := if Leap(year) then 1 else 0;
            && DaysBeforeMonth(year, 1) == 0 && DaysBeforeMonth(year, 2) == 31 && DaysBeforeMonth(year, 3) == 59 + f
            && DaysBeforeMonth(year, 4) == 90 + f && DaysBeforeMonth(year, 5) == 120 + f
                && DaysBeforeMonth(year, 6) == 151 + f
            && DaysBeforeMonth(year, 7) == 181 + f && DaysBeforeMonth(year, 8) == 212 + f
                && DaysBeforeMonth(year, 9) == 243 + f
            && DaysBeforeMonth(year, 10) == 273 + f && DaysBeforeMonth(year, 11) == 304 + f
                && DaysBeforeMonth(year, 12) == 334 + f
  {
    assert DaysBeforeMonth(year, 3) == DaysBeforeMonth(year, 2) + MonthLength(year, 2);
    assert DaysBeforeMonth(year, 5) == DaysBeforeMonth(year, 4) + MonthLength(year, 4);
    assert DaysBeforeMonth(year, 7) == DaysBeforeMonth(year, 6) + MonthLength(year, 6);
    assert DaysBeforeMonth(year, 9) == DaysBeforeMonth(year, 8) + MonthLength(year, 8);
    assert DaysBeforeMonth(year, 11) == DaysBeforeMonth(year, 10) + MonthLength(year, 10);
  }

  lemma Quarter(y: int)
    ensures (y + 1) / 4 == y / 4 + if (y + 1) % 4 == 0 then 1 else 0
  {
  }

  lemma Century(y: int)
    ensures (y + 1) / 100 == y / 100 + if (y + 1) % 100 == 0 then 1 else 0
  {
  }

  lemma FourCenturies(y: int)
    ensures (y + 1) / 400 == y / 400 + if (y + 1) % 400 == 0 then 1 else 0
  {
  }

  lemma LeapCount(year: int)
    ensures (if year % 4 == 0 then 1 else 0) - (if year % 100 == 0 then 1 else 0) + (if year % 400 == 0 then 1 else 0)
            == if Leap(year) then 1 else 0
  {
    if year % 100 == 0 {
      assert year == 4 * (25 * (year / 100));
    }
    if year % 400 == 0 {
      assert year == 100 * (4 * (year / 400));
    }
  }

  lemma YearLength(year: int)
    ensures DaysBeforeYear(year + 1) == DaysBeforeYear(year) + YearDays(year)
  {
    Quarter(year - 1);
    Century(year - 1);
    FourCenturies(year - 1);
    LeapCount(year);
  }

  /** The day number counts days: one more for the successor. */
  lemma NextDayCounts(d: Date)
    requires Valid(d)
    ensures Valid(NextDay(d)) && DaysFromDate(NextDay(d)) == DaysFromDate(d) + 1
  {
    MonthTable(d.year);
    MonthTable(d.year + 1);
    YearLength(d.year);
  }

  lemma {:induction false} LaterYear(y: int, later: int)
    requires y < later
    ensures DaysBeforeYear(later) >= DaysBeforeYear(y) + YearDays(y)
    decreases later - y
  {
    YearLength(later - 1);
    if y < later - 1 {
      LaterYear(y, later - 1);
    }
  }

  /** Days left in the year after the first day of a month. */
  lemma InYear(d: Date)
    requires Valid(d)
    ensures 0 <= DaysBeforeMonth(d.year, d.month) + d.day - 1 < YearDays(d.year)
  {
    MonthTable(d.year);
  }

  /** A day number belongs to one date. */
  lemma DaysFromDateInjective(d: Date, e: Date)
    requires Valid(d) && Valid(e) && DaysFromDate(d) == DaysFromDate(e)
    ensures d == e
  {
    InYear(d);
    InYear(e);
    if d.year < e.year {
      LaterYear(d.year, e.year);
    } else if e.year < d.year {
      LaterYear(e.year, d.year);
    }
    MonthTable(d.year);
  }

  // ---------------------------------------------------------------- the computation

  /** A day of a 400-year era, split into centuries, four-year cycles and days. */
  lemma EraSplit(doe: int) returns (c: int, q: int, s: int)
    requires 0 <= doe < 146097
    ensures doe == 36524 * c + 1461 * q + s && 0 <= c <= 3 && 0 <= q <= 24 && 0 <= s <= 1460
    ensures q == 24 && s == 1460 ==> c == 3
  {
    c := if doe == 146096 then 3 else doe / 36524;
    var r := doe - 36524 * c;
    q := if r == 36524 then 24 else r / 1461;
    s := r - 1461 * q;
  }

  /** The year of the era: four years of 365 days, the fourth one day longer. */
  lemma YearOfEra(doe: int, c: int, q: int, s: int)
    requires 0 <= doe < 146097 && doe == 36524 * c + 1461 * q + s && 0 <= c <= 3 && 0 <= q <= 24 && 0 <= s <= 1460
    requires q == 24 && s == 1460 ==> c == 3
    ensures (doe - doe / 1460 + doe / 36524 - doe / 146096) / 365 == 100 * c + 4 * q + if s == 1460 then 3 else s / 365
  {
    var e := if 24 * c + q + s >= 1460 then 1 else 0;
    assert doe == 1460 * (25 * c + q) + 24 * c + q + s;
    assert doe / 1460 == 25 * c + q + e;
    if doe == 146096 {
      assert doe / 36524 == 4 && doe / 146096 == 1;
    } else {
      assert doe / 36524 == c && doe / 146096 == 0;
    }
    var n := doe - doe / 1460 + doe / 36524 - doe / 146096;
    assert n == 365 * (100 * c + 4 * q) + s - e;
    assert (s - e) / 365 == if s == 1460 then 3 else s / 365;
  }

  /** Month and day from the day of a year that begins in March. */
  lemma MonthOfYear(doy: int)
    requires 0 <= doy <= 365
    ensures var mp := (5 * doy + 2) / 153; var d := doy - (153 * mp + 2) / 5 + 1;
            && 0 <= mp <= 11 && 1 <= d
            && (mp < 10 ==> d <= MonthLength(1, mp + 3) && DaysBeforeMonth(1, mp + 3) + d - 1 == 59 + doy)
            && (mp == 10 ==> d <= 31 && d - 1 == doy - 306) && (mp == 11 ==> 31 + d - 1 == doy - 306)
  {
    MonthTable(1);
    var mp := (5 * doy + 2) / 153;
    assert 0 <= mp <= 11;
    assert 153 * mp <= 5 * doy + 2 < 153 * mp + 153;
  }

  lemma Quotients(era: int, c: int, q: int, t: int)
    requires 0 <= c <= 3 && 0 <= q <= 24 && 0 <= t <= 3
    ensures var year := 100 * c + 4 * q + t + 400 * era;
            year / 4 == 25 * c + q + 100 * era && year / 100 == c + 4 * era && year / 400 == era
  {
  }

  /** The 29th of February that ends a long March year. */
  lemma LongYear(era: int, c: int, q: int)
    requires 0 <= c <= 3 && 0 <= q <= 24 && (q == 24 ==> c == 3)
    ensures Leap(100 * c + 4 * q + 4 + 400 * era)
  {
    var year := 100 * c + 4 * q + 4 + 400 * era;
    assert year == 4 * (25 * c + q + 1 + 100 * era);
    if q == 24 {
      assert year == 400 * (era + 1);
    } else {
      assert year == 100 * (c + 4 * era) + (4 * q + 4);
      assert year % 100 == 4 * q + 4;
    }
  }

  /** A March year ends where the next civil year has 306 days behind it since March, and a
      366th day is the 29th of February of that next year. */
  lemma EraYears(era: int, c: int, q: int, t: int, s: int)
    requires 0 <= c <= 3 && 0 <= q <= 24 && 0 <= t <= 3 && (s == 1460 ==> t == 3 && (q == 24 ==> c == 3))
    ensures var year := 100 * c + 4 * q + t + 400 * era; var march := 36524 * c + 1461 * q + 365 * t + 146097 * era;
            && DaysBeforeYear(year + 1) == march
            && DaysBeforeYear(year) == march - YearDays(year)
            && (s == 1460 ==> Leap(year + 1))
  {
    Quotients(era, c, q, t);
    YearLength(100 * c + 4 * q + t + 400 * era);
    if s == 1460 {
      LongYear(era, c, q);
    }
  }

  /** The date the computation builds from year, day of the March year and month number. */
  function MarchDate(year: int, doy: int): Date
    requires 0 <= doy <= 365
  {
    var mp := (5 * doy + 2) / 153;
    var d := doy - (153 * mp + 2) / 5 + 1;
    if mp < 10 then Date(year, mp + 3, d) else Date(year + 1, mp - 9, d)
  }

  lemma MarchDateDays(year: int, doy: int, march: int)
    requires 0 <= doy <= 365 && (doy == 365 ==> Leap(year + 1))
    requires DaysBeforeYear(year + 1) == march && DaysBeforeYear(year) == march - YearDays(year)
    ensures Valid(MarchDate(year, doy)) && DaysFromDate(MarchDate(year, doy)) == march + doy - 719468
  {
    MonthOfYear(doy);
    MonthTable(year);
    MonthTable(year + 1);
    MonthTable(1);
  }

  lemma InEraIsMarchDate(era: int, doe: int, c: int, q: int, s: int)
    requires 0 <= doe < 146097 && doe == 36524 * c + 1461 * q + s && 0 <= c <= 3 && 0 <= q <= 24 && 0 <= s <= 1460
    requires q == 24 && s == 1460 ==> c == 3
    ensures var t := if s == 1460 then 3 else s / 365;
            InEra(era, doe) == MarchDate(100 * c + 4 * q + t + 400 * era, s - 365 * t)
  {
    YearOfEra(doe, c, q, s);
    var t := if s == 1460 then 3 else s / 365;
    Quotients(0, c, q, t);
  }

  lemma EraOf(z: int)
    ensures var era := TruncDiv(if z >= 0 then z else z - 146096, 146097); 0 <= z - era * 146097 < 146097
  {
  }

  /** The March year of a day of an era, and where it begins. */
  lemma MarchYearOf(era: int, doe: int) returns (year: int, doy: int, march: int)
    requires 0 <= doe < 146097
    ensures 0 <= doy <= 365 && (doy == 365 ==> Leap(year + 1)) && march + doy == era * 146097 + doe
    ensures DaysBeforeYear(year + 1) == march && DaysBeforeYear(year) == march - YearDays(year)
    ensures InEra(era, doe) == MarchDate(year, doy)
  {
    var c, q, s := EraSplit(doe);
    var t := if s == 1460 then 3 else s / 365;
    year, doy, march := 100 * c + 4 * q + t + 400 * era, s - 365 * t, 36524 * c + 1461 * q + 365 * t + 146097 * era;
    InEraIsMarchDate(era, doe, c, q, s);
    EraYears(era, c, q, t, s);
  }

  /** Whatever the era: a valid date with the right day number. */
  lemma InEraIsInverse(era: int, doe: int)
    requires 0 <= doe < 146097
    ensures Valid(InEra(era, doe)) && DaysFromDate(InEra(era, doe)) == era * 146097 + doe - 719468
  {
    var year, doy, march := MarchYearOf(era, doe);
    MarchDateDays(year, doy, march);
  }

  /** The computed date is valid and has the day number it was computed from. */
  lemma CivilIsInverse(days: int)
    ensures Valid(CivilFromDays(days)) && DaysFromDate(CivilFromDays(days)) == days
  {
    var z := days + 719468;
    EraOf(z);
    var era := TruncDiv(if z >= 0 then z else z - 146096, 146097);
    InEraIsInverse(era, z - era * 146097);
  }

  // ---------------------------------------------------------------- the result

  lemma CivilEpoch()
    ensures CivilFromDays(0) == Date(1970, 1, 1)
  {
  }

  /** Two valid dates with consecutive day numbers are consecutive. */
  lemma Consecutive(a: Date, b: Date)
    requires Valid(a) && Valid(b) && DaysFromDate(b) == DaysFromDate(a) + 1
    ensures b == NextDay(a)
  {
    NextDayCounts(a);
    DaysFromDateInjective(b, NextDay(a));
  }

  /** `CivilFromDays` is the proleptic Gregorian calendar: day 0 is 1970-01-01, every day
      number gives a valid date, the next number gives the next day, and counting the days
      of a date leads back; every valid date is reached. */
  lemma CivilIsGregorian(days: int, date: Date)
    ensures CivilFromDays(0) == Date(1970, 1, 1)
    ensures Valid(CivilFromDays(days)) && DaysFromDate(CivilFromDays(days)) == days
    ensures CivilFromDays(days + 1) == NextDay(CivilFromDays(days))
    ensures Valid(date) ==> CivilFromDays(DaysFromDate(date)) == date
  {
    CivilEpoch();
    CivilIsInverse(days);
    CivilIsInverse(days + 1);
    Consecutive(CivilFromDays(days), CivilFromDays(days + 1));
    if Valid(date) {
      CivilIsInverse(DaysFromDate(date));
      DaysFromDateInjective(CivilFromDays(DaysFromDate(date)), date);
    }
  }
}
