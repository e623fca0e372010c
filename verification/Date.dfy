/** Conversions between Gregorian calendar dates and Julian day numbers (mymuduo/base/Date.cc). */
module Date {
  import opened CInt

  datatype YearMonthDay = YearMonthDay(year: int, month: int, day: int)

  // ---------- The code ----------

  function GetJulianDayNumber(year: int, month: int, day: int): int {
    var a := Div(14 - month, 12);
    var y := year + 4800 - a;
    var m := month + 12 * a - 3;
    day + Div(153 * m + 2, 5) + y * 365 + Div(y, 4) - Div(y, 100) + Div(y, 400) - 32045
  }

  function GetYearMonthDay(julianDayNumber: int): YearMonthDay {
    var a := julianDayNumber + 32044;
    var b := Div(4 * a + 3, 146097);
    var c := a - Div(b * 146097, 4);
    var d := Div(4 * c + 3, 1461);
    var e := c - Div(1461 * d, 4);
    var m := Div(5 * e + 2, 153);
    YearMonthDay(b * 100 + d - 4800 + Div(m, 10),
                 m + 3 - 12 * Div(m, 10),
                 e - Div(153 * m + 2, 5) + 1)
  }

  function WeekDay(julianDayNumber: int): int {
    Mod(julianDayNumber + 1, 7)
  }

  const JULIAN_DAY_OF_1970_01_01 := GetJulianDayNumber(1970, 1, 1)

  // ---------- The calendar, stated independently of the code ----------

  predicate IsLeap(year: int) {
    year % 4 == 0 && (year % 100 != 0 || year % 400 == 0)
  }

  function DaysInMonth(year: int, month: int): int
    requires 1 <= month <= 12
  {
    if month == 2 then (if IsLeap(year) then 29 else 28)
    else if month in {4, 6, 9, 11} then 30
    else 31
  }

  predicate ValidDate(d: YearMonthDay) {
    1 <= d.month <= 12 && 1 <= d.day <= DaysInMonth(d.year, d.month)
  }

  function NextDate(d: YearMonthDay): YearMonthDay
    requires ValidDate(d)
  {
    if d.day < DaysInMonth(d.year, d.month) then d.(day := d.day + 1)
    else if d.month < 12 then d.(month := d.month + 1, day := 1)
    else YearMonthDay(d.year + 1, 1, 1)
  }

  predicate Before(x: YearMonthDay, y: YearMonthDay) {
    x.year < y.year
    || (x.year == y.year && (x.month < y.month || (x.month == y.month && x.day < y.day)))
  }

  /** Dates from 1 March 4801 BC (year -4800) on. */
  predicate InEpoch(d: YearMonthDay) {
    d.year > -4800 || (d.year == -4800 && d.month >= 3)
  }

  function JulianDay(d: YearMonthDay): int {
    GetJulianDayNumber(d.year, d.month, d.day)
  }

  // ---------- Proofs ----------

  /** Day number minus one within a year that starts in March. */
  function DayOfMarchYear(m: int, day: int): int {
    (153 * m + 2) / 5 + day - 1
  }

  /** Whole days in the `y` March years before year `y`. */
  function DaysBefore(y: nat): nat {
    y * 365 + y / 4 - y / 100 + y / 400
  }

  /** The calendar date of day `e` of March year `y`. */
  function DateInMarchYear(y: nat, e: nat): YearMonthDay {
    var m := (5 * e + 2) / 153;
    YearMonthDay(y - 4800 + m / 10, m + 3 - 12 * (m / 10), e - (153 * m + 2) / 5 + 1)
  }

  predicate LeapMarchYear(y: nat) {
    (y + 1) % 4 == 0 && ((y + 1) % 100 != 0 || (y + 1) % 400 == 0)
  }

  /** The same count with the year split as 100 * b + d: whole centuries, then whole years. */
  lemma DaysBeforeByCentury(b: nat, d: nat)
    requires d < 100
    ensures DaysBefore(100 * b + d) == 146097 * b / 4 + 1461 * d / 4
  {
    var y := 100 * b + d;
    assert y / 4 == 25 * b + d / 4;
    assert y / 100 == b;
    assert y / 400 == b / 4;
    assert 146097 * b / 4 == 36524 * b + b / 4;
    assert 1461 * d / 4 == 365 * d + d / 4;
  }

  /** A day of the year `100 * b + d`: the century and the year are what the code's two divisions find. */
  lemma SplitDays(b: nat, d: nat, e: nat)
    requires d < 100
    requires e < 365 || (e == 365 && d % 4 == 3 && (d == 99 ==> b % 4 == 3))
    ensures 1461 * d <= 4 * (1461 * d / 4 + e) + 3 < 1461 * d + 1461
    ensures 146097 * b <= 4 * (146097 * b / 4 + 1461 * d / 4 + e) + 3 < 146097 * b + 146097
  {
    assert 4 * (1461 * d / 4) == 1461 * d - d % 4;
    assert 4 * (146097 * b / 4) == 146097 * b - b % 4;
  }

  lemma LeapMarchYearParts(b: nat, d: nat)
    requires d < 100
    ensures LeapMarchYear(100 * b + d) <==> d % 4 == 3 && (d == 99 ==> b % 4 == 3)
  {
    YearEndings(b, d + 1);
  }

  lemma YearEndings(b: nat, d: nat)
    requires 0 < d <= 100
    ensures var y := 100 * b + d;
            && (y % 4 == 0 <==> d % 4 == 0)
            && (y % 100 == 0 <==> d == 100)
            && (d == 100 ==> (y % 400 == 0 <==> (b + 1) % 4 == 0))
  {
    SameModFour(25 * b, d);
    if d == 100 {
      EndOfCentury(b + 1);
    } else {
      WithinCentury(b, d);
    }
  }

  lemma SameModFour(q: nat, d: nat)
    ensures (4 * q + d) % 4 == d % 4
  {
  }

  lemma WithinCentury(b: nat, d: nat)
    requires d < 100
    ensures (100 * b + d) % 100 == d
  {
  }

  lemma EndOfCentury(c: nat)
    ensures (100 * c) % 100 == 0 && ((100 * c) % 400 == 0 <==> c % 4 == 0)
  {
    assert (100 * c) % 400 == 100 * (c % 4);
  }

  lemma SplitMarchYear(m: nat, day: int)
    requires m < 12
    requires 1 <= day <= 31
    requires m in {1, 3, 6, 8} ==> day <= 30
    requires m == 11 ==> day <= 29
    ensures Div(5 * DayOfMarchYear(m, day) + 2, 153) == m
    ensures 0 <= DayOfMarchYear(m, day)
  {
  }

  /** Year counted in Marches since year -4800, and month counted from March. */
  function MarchYear(d: YearMonthDay): int {
    d.year + 4800 - (if d.month < 3 then 1 else 0)
  }

  function MarchMonth(d: YearMonthDay): int {
    if d.month < 3 then d.month + 9 else d.month - 3
  }

  /** The code's day number, read as a count of whole March years plus a day within the last one. */
  lemma JulianDayAsDays(d: YearMonthDay)
    requires ValidDate(d) && InEpoch(d)
    ensures MarchYear(d) >= 0 && 0 <= MarchMonth(d) < 12
    ensures JulianDay(d) + 32044 == DaysBefore(MarchYear(d)) + DayOfMarchYear(MarchMonth(d), d.day)
  {
    var a := Div(14 - d.month, 12);
    assert a == if d.month < 3 then 1 else 0;
    assert d.month + 12 * a - 3 == MarchMonth(d);
  }

  lemma DayWithinMarchYear(d: YearMonthDay)
    requires ValidDate(d) && InEpoch(d)
    ensures var e := DayOfMarchYear(MarchMonth(d), d.day);
            && 0 <= MarchYear(d)
            && (0 <= e < 365 || (e == 365 && LeapMarchYear(MarchYear(d))))
            && DateInMarchYear(MarchYear(d), e) == d
  {
    SplitMarchYear(MarchMonth(d), d.day);
    if d.month == 2 && d.day == 29 {
      LeapShift(d.year);
    }
  }

  lemma LeapShift(year: int)
    requires year + 4799 >= 0
    ensures IsLeap(year) <==> LeapMarchYear(year + 4799)
  {
    assert (year + 4800) % 400 == year % 400;
    assert (year + 4800) % 100 == year % 100;
    assert (year + 4800) % 4 == year % 4;
  }

  /** `GetYearMonthDay` undoes the count of centuries, years and days. */
  lemma FromCenturies(j: int, b: nat, d: nat, e: nat)
    requires j + 32044 == 146097 * b / 4 + 1461 * d / 4 + e
    requires 1461 * d <= 4 * (1461 * d / 4 + e) + 3 < 1461 * d + 1461
    requires 146097 * b <= 4 * (146097 * b / 4 + 1461 * d / 4 + e) + 3 < 146097 * b + 146097
    ensures GetYearMonthDay(j) == DateInMarchYear(100 * b + d, e)
  {
    var a := j + 32044;
    var c := 1461 * d / 4 + e;
    assert (4 * a + 3) / 146097 == b;
    assert (4 * c + 3) / 1461 == d;
    ByParts(j, a, b, c, d, e);
  }

  lemma ByParts(j: int, a: nat, b: nat, c: nat, d: nat, e: nat)
    requires a == j + 32044
    requires (4 * a + 3) / 146097 == b && a == 146097 * b / 4 + c
    requires (4 * c + 3) / 1461 == d && c == 1461 * d / 4 + e
    ensures GetYearMonthDay(j) == DateInMarchYear(100 * b + d, e)
  {
    hide Div, DateInMarchYear;
    DivNat(4 * a + 3, 146097);
    DivNat(b * 146097, 4);
    DivNat(4 * c + 3, 1461);
    DivNat(1461 * d, 4);
    LastLines(b, d, e);
  }

  lemma DivNat(x: nat, n: nat)
    requires n > 0
    ensures Div(x, n) == x / n
  {
  }

  lemma LastLines(b: nat, d: nat, e: nat)
    ensures var m := Div(5 * e + 2, 153);
            YearMonthDay(b * 100 + d - 4800 + Div(m, 10), m + 3 - 12 * Div(m, 10), e - Div(153 * m + 2, 5) + 1) ==
            DateInMarchYear(100 * b + d, e)
  {
    hide Div;
    var m := (5 * e + 2) / 153;
    DivNat(5 * e + 2, 153);
    DivNat(m, 10);
    DivNat(153 * m + 2, 5);
  }

  lemma FromMarchCount(j: int, y: nat, e: nat)
    requires j + 32044 == DaysBefore(y) + e
    requires e < 365 || (e == 365 && LeapMarchYear(y))
    ensures GetYearMonthDay(j) == DateInMarchYear(y, e)
  {
    var b, d := y / 100, y % 100;
    assert y == 100 * b + d;
    DaysBeforeByCentury(b, d);
    LeapMarchYearParts(b, d);
    SplitDays(b, d, e);
    FromCenturies(j, b, d, e);
  }

  lemma DateToDayRoundTrip(d: YearMonthDay)
    requires ValidDate(d) && InEpoch(d)
    ensures JulianDay(d) >= -32044
    ensures GetYearMonthDay(JulianDay(d)) == d
  {
    var e := DayOfMarchYear(MarchMonth(d), d.day);
    JulianDayAsDays(d);
    DayWithinMarchYear(d);
    FromMarchCount(JulianDay(d), MarchYear(d), e);
  }

  /** Any day count splits into centuries, years and a day within the year. */
  lemma Centuries(a: nat) returns (b: nat, d: nat, e: nat)
    ensures a == 146097 * b / 4 + 1461 * d / 4 + e
    ensures d < 100
    ensures e < 365 || (e == 365 && d % 4 == 3 && (d == 99 ==> b % 4 == 3))
  {
    b := (4 * a + 3) / 146097;
    var c := a - 146097 * b / 4;
    assert 4 * (146097 * b / 4) == 146097 * b - b % 4;
    assert 0 <= c && 4 * c <= 146093 + b % 4;
    d := (4 * c + 3) / 1461;
    assert 4 * (1461 * d / 4) == 1461 * d - d % 4;
    e := c - 1461 * d / 4;
  }

  lemma DayToDateRoundTrip(j: int)
    requires j >= -32044
    ensures ValidDate(GetYearMonthDay(j)) && InEpoch(GetYearMonthDay(j))
    ensures JulianDay(GetYearMonthDay(j)) == j
  {
    var b, d, e := Centuries(j + 32044);
    var y := 100 * b + d;
    assert j + 32044 == DaysBefore(y) + e by { DaysBeforeByCentury(b, d); }
    assert e == 365 ==> LeapMarchYear(y) by { LeapMarchYearParts(b, d); }
    assert GetYearMonthDay(j) == DateInMarchYear(y, e) by { FromMarchCount(j, y, e); }
    DateInMarchYearCount(y, e);
  }

  lemma DateInMarchYearCount(y: nat, e: nat)
    requires e < 365 || (e == 365 && LeapMarchYear(y))
    ensures var r := DateInMarchYear(y, e);
            ValidDate(r) && InEpoch(r) && JulianDay(r) + 32044 == DaysBefore(y) + e
  {
    MarchMonthLength(y, e);
    JulianDayAsDays(DateInMarchYear(y, e));
  }

  /** Every day of a March year falls inside one of its months. */
  lemma MarchMonthLength(y: nat, e: nat)
    requires e < 365 || (e == 365 && LeapMarchYear(y))
    ensures var r := DateInMarchYear(y, e);
            && ValidDate(r) && InEpoch(r)
            && MarchYear(r) == y && DayOfMarchYear(MarchMonth(r), r.day) == e
  {
    hide LeapMarchYear;
    var m := (5 * e + 2) / 153;
    MarchMonthDays(e);
    if m == 11 {
      var shifted := y - 4800 + 1;
      LeapShift(shifted);
    }
  }

  /** Day `e` of a March year is one of the days of month `m` counted from March. */
  lemma MarchMonthDays(e: nat)
    requires e <= 365
    ensures var m := (5 * e + 2) / 153;
            && 0 <= m <= 11
            && 1 <= e - (153 * m + 2) / 5 + 1 <= (if m in {1, 3, 6, 8} then 30 else 31)
            && (m == 11 ==> e - (153 * m + 2) / 5 + 1 == e - 336)
  {
  }

  /** Before the epoch the truncating divisions produce a day that is never positive. */
  lemma NoDateBeforeEpoch(j: int)
    requires j < -32044
    ensures GetYearMonthDay(j).day <= 0
  {
    var a := j + 32044;
    var b := Div(4 * a + 3, 146097);
    var c := a - Div(b * 146097, 4);
    assert c <= -1;
    var d := Div(4 * c + 3, 1461);
    var e := c - Div(1461 * d, 4);
    assert e <= -1;
  }

  // ---------- Main results ----------

  /** A calendar date survives the trip through its day number exactly when it is in the epoch. */
  lemma DateRoundTripIff(d: YearMonthDay)
    requires ValidDate(d)
    ensures GetYearMonthDay(JulianDay(d)) == d <==> InEpoch(d)
  {
    if InEpoch(d) {
      DateToDayRoundTrip(d);
    } else if JulianDay(d) >= -32044 {
      DayToDateRoundTrip(JulianDay(d));
    } else {
      NoDateBeforeEpoch(JulianDay(d));
    }
  }

  /** A day number yields a real date, and comes back from it, exactly when it is at least -32044. */
  lemma DayRoundTripIff(j: int)
    ensures (ValidDate(GetYearMonthDay(j)) && JulianDay(GetYearMonthDay(j)) == j) <==> j >= -32044
  {
    if j >= -32044 {
      DayToDateRoundTrip(j);
    } else {
      NoDateBeforeEpoch(j);
    }
  }

  lemma DaysBeforeNext(y: nat)
    ensures DaysBefore(y + 1) == DaysBefore(y) + (if LeapMarchYear(y) then 366 else 365)
  {
    assert (y + 1) / 4 == y / 4 + (if (y + 1) % 4 == 0 then 1 else 0);
    assert (y + 1) / 100 == y / 100 + (if (y + 1) % 100 == 0 then 1 else 0);
    assert (y + 1) / 400 == y / 400 + (if (y + 1) % 400 == 0 then 1 else 0);
  }

  lemma NextDateValid(d: YearMonthDay)
    requires ValidDate(d) && InEpoch(d)
    ensures ValidDate(NextDate(d)) && InEpoch(NextDate(d))
  {
  }

  lemma NextDateCount(d: YearMonthDay)
    requires ValidDate(d) && InEpoch(d)
    ensures var n := NextDate(d);
            && MarchYear(d) >= 0 && MarchYear(n) >= 0
            && DaysBefore(MarchYear(n)) + DayOfMarchYear(MarchMonth(n), n.day) ==
               DaysBefore(MarchYear(d)) + DayOfMarchYear(MarchMonth(d), d.day) + 1
  {
    if d.month == 2 && NextDate(d).month == 3 {
      DaysBeforeNext(MarchYear(d));
      LeapShift(d.year);
    } else {
      MonthStep(d);
    }
  }

  /** Stepping the calendar by one day steps the day number by one, across months, years and leap days. */
  lemma NextDateIsNextDay(d: YearMonthDay)
    requires ValidDate(d) && InEpoch(d)
    ensures ValidDate(NextDate(d)) && InEpoch(NextDate(d))
    ensures JulianDay(NextDate(d)) == JulianDay(d) + 1
    ensures GetYearMonthDay(JulianDay(d) + 1) == NextDate(d)
  {
    hide GetYearMonthDay, GetJulianDayNumber, DaysBefore, DayOfMarchYear;
    NextDateValid(d);
    NextDateCount(d);
    JulianDayAsDays(d);
    JulianDayAsDays(NextDate(d));
    DateToDayRoundTrip(NextDate(d));
  }

  lemma MonthStep(d: YearMonthDay)
    requires ValidDate(d) && !(d.month == 2 && NextDate(d).month == 3)
    ensures MarchYear(NextDate(d)) == MarchYear(d)
    ensures DayOfMarchYear(MarchMonth(NextDate(d)), NextDate(d).day) == DayOfMarchYear(MarchMonth(d), d.day) + 1
  {
    var m := MarchMonth(d);
    assert d.month != 2 ==> (153 * (m + 1) + 2) / 5 - (153 * m + 2) / 5 == DaysInMonth(d.year, d.month);
  }

  /** The weekday: the code's remainder is the day count modulo 7 only where it is not negative. */
  lemma WeekDayIff(j: int)
    ensures WeekDay(j) == (j + 1) % 7 <==> j >= -1 || (j + 1) % 7 == 0
  {
    assert j < -1 ==> (j + 1) + (-(j + 1)) % 7 == -7 * ((-(j + 1)) / 7);
  }

  /** Days from the first of January, summed month by month. */
  function DayOfYear(year: int, month: int, day: int): int
    requires 1 <= month <= 12
    decreases month
  {
    if month == 1 then day - 1 else DaysInMonth(year, month - 1) + DayOfYear(year, month - 1, day)
  }

  lemma {:induction false} DayNumberWithinYear(d: YearMonthDay)
    requires ValidDate(d) && d.year > -4800
    ensures JulianDay(d) - GetJulianDayNumber(d.year, 1, 1) == DayOfYear(d.year, d.month, d.day)
    ensures 0 <= DayOfYear(d.year, d.month, d.day) <= 365
  {
    FirstOfMonth(d.year, d.month);
    DayOfYearBound(d.year, d.month, d.day);
    DayOfYearLinear(d.year, d.month, d.day);
  }

  lemma {:induction false} DayOfYearLinear(year: int, month: int, day: int)
    requires 1 <= month <= 12
    ensures DayOfYear(year, month, day) == DayOfYear(year, month, 1) + day - 1
    decreases month
  {
    if month > 1 {
      DayOfYearLinear(year, month - 1, day);
    }
  }

  lemma {:induction false} FirstOfMonth(year: int, month: int)
    requires 1 <= month <= 12 && year > -4800
    ensures GetJulianDayNumber(year, month, 1) - GetJulianDayNumber(year, 1, 1) == DayOfYear(year, month, 1)
    decreases month
  {
    hide GetJulianDayNumber, GetYearMonthDay;
    if month > 1 {
      FirstOfMonth(year, month - 1);
      var last := YearMonthDay(year, month - 1, DaysInMonth(year, month - 1));
      NextDateIsNextDay(last);
      assert GetJulianDayNumber(year, month - 1, last.day) == GetJulianDayNumber(year, month - 1, 1) + last.day - 1 by {
        DayNumberLinear(year, month - 1, last.day);
      }
    }
  }

  lemma DayNumberLinear(year: int, month: int, day: int)
    ensures GetJulianDayNumber(year, month, day) == GetJulianDayNumber(year, month, 1) + day - 1
  {
  }

  lemma DayOfYearBound(year: int, month: int, day: int)
    requires ValidDate(YearMonthDay(year, month, day))
    ensures 0 <= DayOfYear(year, month, day) <= 365
  {
    DayOfYearLinear(year, month, day);
    MonthStarts(year, month);
  }

  lemma {:induction false} MonthStarts(year: int, month: int)
    requires 1 <= month <= 12
    ensures 0 <= DayOfYear(year, month, 1) <= 366 - 31 && (month == 12 || DayOfYear(year, month, 1) <= 31 * (month - 1))
    ensures DayOfYear(year, 12, 1) <= 335
    decreases month
  {
    if month > 1 {
      MonthStarts(year, month - 1);
    }
  }

  /** Day numbers order dates as the calendar does. */
  lemma DayNumbersOrderDates(x: YearMonthDay, y: YearMonthDay)
    requires ValidDate(x) && InEpoch(x) && ValidDate(y) && InEpoch(y)
    ensures Before(x, y) <==> JulianDay(x) < JulianDay(y)
  {
    if Before(x, y) {
      LaterDateLaterDay(x, y);
    } else if Before(y, x) {
      LaterDateLaterDay(y, x);
    } else {
      assert x == y;
    }
  }

  lemma LaterDateLaterDay(x: YearMonthDay, y: YearMonthDay)
    requires ValidDate(x) && InEpoch(x) && ValidDate(y) && InEpoch(y) && Before(x, y)
    ensures JulianDay(x) < JulianDay(y)
  {
    JulianDayAsDays(x);
    JulianDayAsDays(y);
    if MarchYear(x) == MarchYear(y) {
      DayOfMarchYearOrder(x, y);
    } else {
      MarchYearOrder(x, y);
    }
  }

  lemma MarchYearOrder(x: YearMonthDay, y: YearMonthDay)
    requires ValidDate(x) && InEpoch(x) && ValidDate(y) && 0 <= MarchYear(x) < MarchYear(y)
    ensures DaysBefore(MarchYear(x)) + DayOfMarchYear(MarchMonth(x), x.day) <
            DaysBefore(MarchYear(y)) + DayOfMarchYear(MarchMonth(y), y.day)
  {
    DayWithinMarchYear(x);
    DaysBeforeNext(MarchYear(x));
    DaysBeforeMonotone(MarchYear(x) + 1, MarchYear(y));
  }

  lemma DayOfMarchYearOrder(x: YearMonthDay, y: YearMonthDay)
    requires ValidDate(x) && ValidDate(y) && Before(x, y) && MarchYear(x) == MarchYear(y)
    ensures DayOfMarchYear(MarchMonth(x), x.day) < DayOfMarchYear(MarchMonth(y), y.day)
  {
    var m, n := MarchMonth(x), MarchMonth(y);
    assert m <= n;
    if m < n {
      assert (153 * (m + 1) + 2) / 5 <= (153 * n + 2) / 5;
      assert (153 * (m + 1) + 2) / 5 - (153 * m + 2) / 5 == DaysInMonth(x.year, x.month);
    }
  }

  lemma {:induction false} DaysBeforeMonotone(x: nat, y: nat)
    requires x <= y
    ensures DaysBefore(x) <= DaysBefore(y)
    decreases y - x
  {
    if x < y {
      DaysBeforeNext(x);
      DaysBeforeMonotone(x + 1, y);
    }
  }

  // Every intermediate value of the two conversions, as C++ evaluates them in 32-bit ints.

  predicate JulianDayFits(d: YearMonthDay) {
    var a := Div(14 - d.month, 12);
    var y := d.year + 4800 - a;
    var m := d.month + 12 * a - 3;
    var s := d.day + Div(153 * m + 2, 5) + y * 365;
    && FitsInt32(d.year + 4800) && FitsInt32(y) && FitsInt32(153 * m + 2) && FitsInt32(y * 365)
    && FitsInt32(s) && FitsInt32(s + Div(y, 4)) && FitsInt32(s + Div(y, 4) - Div(y, 100))
    && FitsInt32(s + Div(y, 4) - Div(y, 100) + Div(y, 400)) && FitsInt32(JulianDay(d))
  }

  predicate YearMonthDayFits(j: int) {
    var a := j + 32044;
    var b := Div(4 * a + 3, 146097);
    var c := a - Div(b * 146097, 4);
    var d := Div(4 * c + 3, 1461);
    && FitsInt32(a) && FitsInt32(4 * a + 3) && FitsInt32(b * 146097)
    && FitsInt32(4 * c + 3) && FitsInt32(1461 * d) && FitsInt32(b * 100 + d - 4800)
  }

  /** The forward conversion cannot overflow for any year up to 5870000; the documented range is [1900..2500]. */
  lemma JulianDayNoOverflow(d: YearMonthDay)
    requires ValidDate(d) && -4800 <= d.year <= 5_870_000
    ensures JulianDayFits(d)
  {
    var a := Div(14 - d.month, 12);
    assert 0 <= a <= 1;
  }

  /** Taking the number of a day apart, and the number of the first day of its year, which `tm_yday` counts from. */
  lemma DayOfYearNoOverflow(j: int)
    requires -32044 <= j <= 536_838_867
    ensures var year := GetYearMonthDay(j).year;
            && FitsInt32(year - 1900) && FitsInt32(j + 1)
            && JulianDayFits(YearMonthDay(year, 1, 1)) && FitsInt32(j - GetJulianDayNumber(year, 1, 1))
  {
    hide GetYearMonthDay, GetJulianDayNumber, JulianDayFits;
    YearOfDay(j);
    var first := YearMonthDay(GetYearMonthDay(j).year, 1, 1);
    JulianDayNoOverflow(first);
    FirstOfYearBounded(first.year);
  }

  lemma YearOfDay(j: int)
    requires -32044 <= j <= 536_838_867
    ensures -4800 <= GetYearMonthDay(j).year <= 1_470_000
  {
    var b, d, e := Centuries(j + 32044);
    assert b <= 14_700;
  }

  lemma FirstOfYearBounded(year: int)
    requires -4800 <= year <= 1_470_000
    ensures -100_000 <= GetJulianDayNumber(year, 1, 1) <= 600_000_000
  {
  }

  /** The backward conversion cannot overflow exactly up to the day number 536838867. */
  lemma YearMonthDayNoOverflow(j: int)
    requires j >= -32044
    ensures YearMonthDayFits(j) <==> j <= 536_838_867
  {
  }
}
