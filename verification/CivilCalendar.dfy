/** The two in-tree copies of the days-to-date conversion, and the proof that
    they compute the proleptic Gregorian calendar.

    The reference is `DayNumber`: it adds whole years and whole months, one at a
    time, from 1970-01-01 outwards.  Nothing in it mentions eras or centuries. */
module CivilCalendar {

  // ---------- the reference calendar ----------

  datatype Date = Date(year: int, month: int, day: int)

  predicate IsLeap(y: int) {
    y % 4 == 0 && (y % 100 != 0 || y % 400 == 0)
  }

  function YearLength(y: int): int {
    if IsLeap(y) then 366 else 365
  }

  function MonthLength(y: int, m: int): int
    requires 1 <= m <= 12
  {
    if m == 2 then (if IsLeap(y) then 29 else 28)
    else if m == 4 || m == 6 || m == 9 || m == 11 then 30
    else 31
  }

  predicate IsDate(d: Date) {
    1 <= d.month <= 12 && 1 <= d.day <= MonthLength(d.year, d.month)
  }

  /** Days from 1970-01-01 to January 1st of year `y`, adding one year at a time. */
  function DaysToYear(y: int): int
    decreases if y >= 1970 then y - 1970 else 1970 - y
  {
    if y == 1970 then 0
    else if y > 1970 then DaysToYear(y - 1) + YearLength(y - 1)
    else DaysToYear(y + 1) - YearLength(y)
  }

  /** Days from January 1st to the first of month `m`, adding one month at a time. */
  function DaysToMonth(y: int, m: int): int
    requires 1 <= m <= 13
    decreases m
  {
    if m == 1 then 0 else DaysToMonth(y, m - 1) + MonthLength(y, m - 1)
  }

  function DayNumber(d: Date): int
    requires IsDate(d)
  {
    DaysToYear(d.year) + DaysToMonth(d.year, d.month) + (d.day - 1)
  }

  predicate Before(a: Date, b: Date) {
    a.year < b.year
    || (a.year == b.year && a.month < b.month)
    || (a.year == b.year && a.month == b.month && a.day < b.day)
  }

  function NextDay(d: Date): (n: Date)
    requires IsDate(d)
    ensures IsDate(n)
  {
    if d.day < MonthLength(d.year, d.month) then Date(d.year, d.month, d.day + 1)
    else if d.month < 12 then Date(d.year, d.month + 1, 1)
    else Date(d.year + 1, 1, 1)
  }

  // ---------- the code ----------

  /** Integer division as the source language does it: towards zero. */
  function TruncDiv(a: int, b: int): int
    requires b > 0
  {
    if a >= 0 then a / b else -((-a) / b)
  }

  function YearOfEra(doe: int): int {
    (doe - doe / 1460 + doe / 36524 - doe / 146096) / 365
  }

  function DayOfYear(doe: int, yoe: int): int {
    doe - (365 * yoe + yoe / 4 - yoe / 100)
  }

  /** Month and day from the March-based year and the day within it. */
  function DateOfParts(year: int, doy: int): Date {
    var mp := (5 * doy + 2) / 153;
    var day := doy - (153 * mp + 2) / 5 + 1;
    var month := if mp < 10 then mp + 3 else mp - 9;
    Date(if month <= 2 then year + 1 else year, month, day)
  }

  /** `civil_from_days` of the performance guard.  The whole conditional is the dividend. */
  function CivilFromDays(days: int): Date {
    var z := days + 719468;
    var era := TruncDiv(if z >= 0 then z else z - 146096, 146097);
    var doe := z - era * 146097;
    var yoe := YearOfEra(doe);
    DateOfParts(yoe + era * 400, DayOfYear(doe, yoe))
  }

  /** The unsigned copy inside the release receipt's `now_iso8601`. */
  function UnsignedCivilFromDays(days: nat): Date {
    var z := days + 719468;
    var era := z / 146097;
    var doe := z - era * 146097;
    var yoe := (doe - doe / 1460 + doe / 36524 - doe / 146096) / 365;
    var y := yoe + era * 400;
    var doy := doe - (365 * yoe + yoe / 4 - yoe / 100);
    var mp := (5 * doy + 2) / 153;
    var d := doy - (153 * mp + 2) / 5 + 1;
    var m := if mp < 10 then mp + 3 else mp - 9;
    var year := if m <= 2 then y + 1 else y;
    Date(year, m, d)
  }

  /** The date of day `z` counted from the start of era 0. */
  function EraDate(z: int): Date {
    var era := z / 146097;
    var doe := z - era * 146097;
    DateOfParts(YearOfEra(doe) + era * 400, DayOfYear(doe, YearOfEra(doe)))
  }

  // ---------- closed forms of the reference ----------

  function YearStart(y: int): int {
    365 * y + y / 4 - y / 100 + y / 400
  }

  lemma YearStartStep(y: int)
    ensures YearStart(y) - YearStart(y - 1) == YearLength(y)
  {
    assert y / 4 - (y - 1) / 4 == if y % 4 == 0 then 1 else 0;
    assert y / 100 - (y - 1) / 100 == if y % 100 == 0 then 1 else 0;
    assert y / 400 - (y - 1) / 400 == if y % 400 == 0 then 1 else 0;
  }

  lemma {:induction false} DaysToYearClosed(y: int)
    ensures DaysToYear(y) == YearStart(y - 1) - YearStart(1969)
    decreases if y >= 1970 then y - 1970 else 1970 - y
  {
    if y > 1970 {
      DaysToYearClosed(y - 1);
      YearStartStep(y - 1);
    } else if y < 1970 {
      DaysToYearClosed(y + 1);
      YearStartStep(y);
    }
  }

  lemma {:induction false} MonthsAreMonotone(y: int, m: int, n: int)
    requires 1 <= m <= n <= 13
    ensures DaysToMonth(y, m) <= DaysToMonth(y, n)
    ensures m < n ==> DaysToMonth(y, m) + MonthLength(y, m) <= DaysToMonth(y, n)
    decreases n
  {
    if m < n { MonthsAreMonotone(y, m, n - 1); }
  }

  lemma MonthStarts(y: int)
    ensures DaysToMonth(y, 1) == 0 && DaysToMonth(y, 2) == 31
    ensures var f := if IsLeap(y) then 60 else 59;
            DaysToMonth(y, 3) == f && DaysToMonth(y, 4) == f + 31 && DaysToMonth(y, 5) == f + 61
            && DaysToMonth(y, 6) == f + 92 && DaysToMonth(y, 7) == f + 122 && DaysToMonth(y, 8) == f + 153
            && DaysToMonth(y, 9) == f + 184 && DaysToMonth(y, 10) == f + 214 && DaysToMonth(y, 11) == f + 245
            && DaysToMonth(y, 12) == f + 275 && DaysToMonth(y, 13) == f + 306
  {
    assert DaysToMonth(y, 3) == DaysToMonth(y, 2) + MonthLength(y, 2);
    assert DaysToMonth(y, 5) == DaysToMonth(y, 3) + 61;
    assert DaysToMonth(y, 7) == DaysToMonth(y, 5) + 61;
    assert DaysToMonth(y, 9) == DaysToMonth(y, 7) + 62;
    assert DaysToMonth(y, 11) == DaysToMonth(y, 9) + 61;
    assert DaysToMonth(y, 13) == DaysToMonth(y, 11) + 61;
  }

  lemma {:induction false} YearsAreMonotone(x: int, y: int)
    requires x < y
    ensures DaysToYear(x) + YearLength(x) <= DaysToYear(y)
    decreases y - x
  {
    DaysToYearClosed(x);
    DaysToYearClosed(x + 1);
    YearStartStep(x);
    if x + 1 < y { YearsAreMonotone(x + 1, y); }
  }

  // ---------- the era arithmetic ----------

  /** The day of a 400-year era, split into century, four-year cycle, year and day. */
  lemma EraSplit(doe: int) returns (c: int, q: int, r: int, e: int)
    requires 0 <= doe < 146097
    ensures doe == 36524 * c + 1461 * q + 365 * r + e
    ensures 0 <= c <= 3 && 0 <= q <= 24 && 0 <= r <= 3 && 0 <= e <= 365
    ensures e == 365 ==> r == 3 && (q < 24 || c == 3)
  {
    c := if doe / 36524 > 3 then 3 else doe / 36524;
    var d := doe - 36524 * c;
    assert 0 <= d && (c < 3 ==> d < 36524) && d <= 36524;
    q := d / 1461;
    var f := d - 1461 * q;
    assert 0 <= f < 1461;
    r := if f / 365 > 3 then 3 else f / 365;
    e := f - 365 * r;
  }

  /** The heart of the algorithm: the estimate lands on the year that contains the day. */
  lemma YearOfEraIsExact(doe: int)
    requires 0 <= doe < 146097
    ensures var yoe := YearOfEra(doe);
            0 <= yoe <= 399
            && 0 <= DayOfYear(doe, yoe) < YearLength(yoe + 1)
  {
    var c, q, r, e := EraSplit(doe);
    var k := 100 * c + 4 * q + r;
    assert 365 * k + k / 4 - k / 100 == 36524 * c + 1461 * q + 365 * r by {
      assert k / 4 == 25 * c + q;
      assert k / 100 == c;
    }
    var spill := 24 * c + q + 365 * r + e;
    assert doe / 1460 == 25 * c + q + (if spill >= 1460 then 1 else 0);
    var last := if doe == 146096 then 1 else 0;
    assert doe / 36524 == c + last;
    assert doe / 146096 == last;
    var f := doe - doe / 1460 + doe / 36524 - doe / 146096;
    assert f == 365 * k + e - (if spill >= 1460 then 1 else 0);
    assert YearOfEra(doe) == k;
    assert DayOfYear(doe, k) == e;
    if e == 365 {
      assert (k + 1) % 4 == 0;
      if q == 24 { assert k + 1 == 400; } else { assert (k + 1) % 100 == 4 * q + 4; }
    }
  }

  /** Splitting the March-based day of year into month and day. */
  lemma MonthSplit(doy: int)
    requires 0 <= doy <= 365
    ensures var mp := (5 * doy + 2) / 153;
            0 <= mp <= 11 && (153 * mp + 2) / 5 <= doy
            && (mp < 11 ==> doy < (153 * (mp + 1) + 2) / 5)
  {}

  /** Years of an era behave like years of the calendar. */
  lemma EraYears(era: int, k: int)
    requires 0 <= k <= 400
    ensures YearStart(400 * era + k) == 146097 * era + YearStart(k)
    ensures YearLength(400 * era + k) == YearLength(k)
  {
    assert (400 * era + k) / 4 == 100 * era + k / 4;
    assert (400 * era + k) / 100 == 4 * era + k / 100;
    assert (400 * era + k) / 400 == era + k / 400;
  }

  lemma EraIsFloor(z: int)
    ensures var era := TruncDiv(if z >= 0 then z else z - 146096, 146097);
            era == z / 146097 && 0 <= z - era * 146097 < 146097
  {
    if z < 0 {
      var n := 146096 - z;
      assert z - 146096 == -n;
      assert n / 146097 == -(z / 146097);
    }
  }

  /** The March-based month table agrees with the calendar's months. */
  lemma MonthTable(year: int, doy: int)
    requires 0 <= doy < YearLength(year + 1)
    ensures var d := DateOfParts(year, doy);
            IsDate(d)
            && d.year == (if doy < 306 then year else year + 1)
            && DaysToMonth(d.year, d.month) + (d.day - 1)
               == (if doy < 306 then DaysToMonth(year, 3) else -306) + doy
  {
    MonthSplit(doy);
    MonthStarts(year);
    MonthStarts(year + 1);
    assert (153 * 11 + 2) / 5 == 337 && (153 * 10 + 2) / 5 == 306;
  }

  lemma MarchFirst(year: int)
    ensures DaysToYear(year) + DaysToMonth(year, 3) == YearStart(year) - 719468
    ensures DaysToYear(year + 1) - 306 == YearStart(year) - 719468
  {
    MonthStarts(year);
    DaysToYearClosed(year);
    DaysToYearClosed(year + 1);
    YearStartStep(year);
  }

  lemma DateOfPartsIsExact(year: int, doy: int)
    requires 0 <= doy < YearLength(year + 1)
    ensures IsDate(DateOfParts(year, doy))
    ensures DayNumber(DateOfParts(year, doy)) == YearStart(year) + doy - 719468
  {
    MonthTable(year, doy);
    MarchFirst(year);
  }

  lemma EraDateIsExact(era: int, doe: int)
    requires 0 <= doe < 146097
    ensures var d := DateOfParts(YearOfEra(doe) + era * 400, DayOfYear(doe, YearOfEra(doe)));
            IsDate(d) && DayNumber(d) == era * 146097 + doe - 719468
  {
    YearOfEraIsExact(doe);
    var yoe := YearOfEra(doe);
    var doy := DayOfYear(doe, yoe);
    EraYears(era, yoe);
    EraYears(era, yoe + 1);
    DateOfPartsIsExact(400 * era + yoe, doy);
    assert yoe / 400 == 0;
  }

  /** Main result: for every integer the conversion yields a Gregorian date whose
      day count, added up year by year and month by month, is the input. */
  lemma CivilFromDaysIsCorrect(days: int)
    ensures IsDate(CivilFromDays(days))
    ensures DayNumber(CivilFromDays(days)) == days
  {
    hide DateOfParts, DayNumber, IsDate, YearOfEra, DayOfYear, TruncDiv;
    var z := days + 719468;
    EraIsFloor(z);
    EraDateIsExact(z / 146097, z - z / 146097 * 146097);
  }

  /** Chronological order of dates is the order of their day numbers. */
  lemma DayNumberIsMonotone(a: Date, b: Date)
    requires IsDate(a) && IsDate(b)
    ensures Before(a, b) <==> DayNumber(a) < DayNumber(b)
    ensures DayNumber(a) == DayNumber(b) <==> a == b
  {
    if Before(a, b) {
      EarlierHasSmallerNumber(a, b);
    } else if Before(b, a) {
      EarlierHasSmallerNumber(b, a);
    }
  }

  lemma EarlierHasSmallerNumber(a: Date, b: Date)
    requires IsDate(a) && IsDate(b) && Before(a, b)
    ensures DayNumber(a) < DayNumber(b)
  {
    if a.year < b.year {
      YearsAreMonotone(a.year, b.year);
      MonthStarts(a.year);
      MonthsAreMonotone(a.year, a.month, 13);
      MonthsAreMonotone(b.year, 1, b.month);
    } else if a.month < b.month {
      MonthsAreMonotone(a.year, a.month, b.month);
    }
  }

  /** The conversion and the day count are inverse bijections. */
  lemma CivilRoundTrip(d: Date)
    requires IsDate(d)
    ensures CivilFromDays(DayNumber(d)) == d
  {
    CivilFromDaysIsCorrect(DayNumber(d));
    DayNumberIsMonotone(CivilFromDays(DayNumber(d)), d);
  }

  lemma NextDayIsNextNumber(d: Date)
    requires IsDate(d)
    ensures DayNumber(NextDay(d)) == DayNumber(d) + 1
  {
    MonthStarts(d.year);
    DaysToYearClosed(d.year);
    DaysToYearClosed(d.year + 1);
    YearStartStep(d.year);
  }

  /** One more day is the calendar's next day. */
  lemma CivilSuccessor(days: int)
    ensures IsDate(CivilFromDays(days)) && CivilFromDays(days + 1) == NextDay(CivilFromDays(days))
  {
    CivilFromDaysIsCorrect(days);
    SuccessorOf(CivilFromDays(days), days);
  }

  lemma SuccessorOf(d: Date, days: int)
    requires IsDate(d) && DayNumber(d) == days
    ensures CivilFromDays(days + 1) == NextDay(d)
  {
    NextDayIsNextNumber(d);
    CivilRoundTrip(NextDay(d));
  }

  /** The unsigned copy computes the same dates for every day it can be given. */
  lemma UnsignedCopyAgrees(days: nat)
    ensures UnsignedCivilFromDays(days) == CivilFromDays(days)
  {
    hide DateOfParts, YearOfEra, DayOfYear, TruncDiv, UnsignedCivilFromDays;
    var z := days + 719468;
    EraIsFloor(z);
    UnsignedByEra(days);
  }

  lemma UnsignedByEra(days: nat)
    ensures UnsignedCivilFromDays(days) == EraDate(days + 719468)
  {
    var z := days + 719468;
    var era := z / 146097;
    var doe := z - era * 146097;
    var yoe := (doe - doe / 1460 + doe / 36524 - doe / 146096) / 365;
    var doy := doe - (365 * yoe + yoe / 4 - yoe / 100);
    assert UnsignedCivilFromDays(days) == DateOfParts(yoe + era * 400, doy);
    assert yoe == YearOfEra(doe);
    assert doy == DayOfYear(doe, yoe);
  }
}
