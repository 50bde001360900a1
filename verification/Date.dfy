/**
 Proleptic-Gregorian dates and Julian day numbers (dc/base/date.cc).

 The two conversions are written over 32-bit integers, so that every intermediate result of the
 source's expressions is checked against overflow where the function is declared. The calendar that
 they are compared with (leap years, month lengths, the next day) is stated independently of them.
 */
module Date {
  import opened Arithmetic

  newtype int32 = x: int | -0x8000_0000 <= x < 0x8000_0000

  datatype YearMonthDay = YearMonthDay(year: int32, month: int32, day: int32)

  const INT32_MAX: int := 0x7FFF_FFFF

  /** The last year all of whose days convert without leaving 32 bits. */
  const LAST_YEAR: int := 5874688

  /** Day number of -4800-03-01, and the last one whose conversion stays within 32 bits. */
  const FIRST_JDN: int := -32044
  const LAST_JDN: int := 536838867

  // ----- the calendar

  predicate IsLeap(year: int) {
    year % 4 == 0 && (year % 100 != 0 || year % 400 == 0)
  }

  function DaysInMonth(year: int, month: int): (n: int)
    requires 1 <= month <= 12
    ensures 28 <= n <= 31
  {
    if month == 2 then (if IsLeap(year) then 29 else 28)
    else if month == 4 || month == 6 || month == 9 || month == 11 then 30
    else 31
  }

  predicate ValidDate(d: YearMonthDay) {
    1 <= d.month <= 12 && 1 <= d.day as int <= DaysInMonth(d.year as int, d.month as int)
  }

  /** A date of the calendar, not before 1 March of the year -4800 and not after LAST_YEAR. */
  predicate InRange(d: YearMonthDay) {
    && ValidDate(d)
    && (d.year > -4800 || (d.year == -4800 && d.month >= 3))
    && d.year as int <= LAST_YEAR
  }

  function NextDay(d: YearMonthDay): YearMonthDay
    requires InRange(d)
  {
    if d.day as int < DaysInMonth(d.year as int, d.month as int) then d.(day := d.day + 1)
    else if d.month < 12 then YearMonthDay(d.year, d.month + 1, 1)
    else YearMonthDay(d.year + 1, 1, 1)
  }

  // ----- the conversions

  /** Number of days from -4800-03-01, for the day `e` of the year that starts on 1 March `y - 4800`. */
  ghost function MarchCount(y: nat, e: nat): nat {
    365 * y + y / 4 - y / 100 + y / 400 + e
  }

  /** Days of a March-based year that precede its month `m` (0 is March, 11 is February). */
  ghost function MonthStart(m: nat): nat {
    (153 * m + 2) / 5
  }

  /** The March-based year and month of a date, counted from -4800-03. */
  function MarchYear(d: YearMonthDay): int {
    if d.month >= 3 then d.year as int + 4800 else d.year as int + 4799
  }

  function MarchMonth(d: YearMonthDay): int {
    if d.month >= 3 then d.month as int - 3 else d.month as int + 9
  }

  function JulianDayNumber(d: YearMonthDay): (r: int32)
    requires InRange(d)
    ensures r as int == MarchCount(MarchYear(d), MonthStart(MarchMonth(d)) + d.day as int - 1) + FIRST_JDN
  {
    var a := (14 - d.month) / 12;
    assert a == if d.month < 3 then 1 else 0;
    var y := d.year + 4800 - a;
    var m := d.month + 12 * a - 3;
    d.day + (153 * m + 2) / 5 + y * 365 + y / 4 - y / 100 + y / 400 - 32045
  }

  function DateOf(julianDayNumber: int32): (r: YearMonthDay)
    requires FIRST_JDN <= julianDayNumber as int <= LAST_JDN
  {
    var a := julianDayNumber + 32044;
    var b := (4 * a + 3) / 146097;
    var c := a - b * 146097 / 4;
    var d := (4 * c + 3) / 1461;
    var e := c - 1461 * d / 4;
    var m := (5 * e + 2) / 153;
    YearMonthDay(b * 100 + d - 4800 + m / 10, m + 3 - 12 * (m / 10), e - (153 * m + 2) / 5 + 1)
  }

  // ----- how a day count splits into century, year, day of year and month

  lemma CenturySplit(y: nat, e: nat)
    ensures MarchCount(y, e) == 146097 * (y / 100) / 4 + 1461 * (y % 100) / 4 + e
  {
    var c, r := y / 100, y % 100;
    assert y == 100 * c + r;
    assert y / 4 == 25 * c + r / 4;
    assert y / 400 == c / 4;
  }

  /** Length of the March-based year `y`: its February belongs to the calendar year `y + 1 - 4800`. */
  ghost function MarchYearLength(y: nat): nat {
    if IsLeap(y + 1) then 366 else 365
  }

  /** The calendar repeats every 400 years. */
  lemma LeapShift(y: int)
    ensures IsLeap(y) == IsLeap(y - 4800)
  {
    Division(y - 4800, 4, y / 4 - 1200, y % 4);
    Division(y - 4800, 100, y / 100 - 48, y % 100);
    Division(y - 4800, 400, y / 400 - 12, y % 400);
  }

  lemma MonthStarts()
    ensures MonthStart(0) == 0 && MonthStart(1) == 31 && MonthStart(2) == 61 && MonthStart(3) == 92
    ensures MonthStart(4) == 122 && MonthStart(5) == 153 && MonthStart(6) == 184 && MonthStart(7) == 214
    ensures MonthStart(8) == 245 && MonthStart(9) == 275 && MonthStart(10) == 306 && MonthStart(11) == 337
  {
  }

  lemma LeapSplit(c: nat, r: nat)
    requires r < 100
    ensures IsLeap(100 * c + r + 1) <==> (r + 1) % 4 == 0 && (r == 99 ==> c % 4 == 3)
  {
    var y := 100 * c + r + 1;
    Division(y, 4, 25 * c + (r + 1) / 4, (r + 1) % 4);
    if r == 99 {
      Division(y, 100, c + 1, 0);
      Division(y, 400, (c + 1) / 4, 100 * ((c + 1) % 4));
    } else {
      Division(y, 100, c, r + 1);
    }
  }

  lemma DecodeYearOfCentury(r: nat, e: nat)
    requires e < (if (r + 1) % 4 == 0 then 366 else 365)
    ensures (4 * (1461 * r / 4 + e) + 3) / 1461 == r
  {
    var q, p := r / 4, r % 4;
    assert 1461 * r == 4 * (1461 * q) + 1461 * p;
    assert 1461 * r / 4 == 1461 * q + 1461 * p / 4;
  }

  lemma DecodeCentury(c: nat, k: nat)
    requires k < (if c % 4 == 3 then 36525 else 36524)
    ensures (4 * (146097 * c / 4 + k) + 3) / 146097 == c
  {
    var q, p := c / 4, c % 4;
    assert 146097 * c / 4 == 146097 * q + 146097 * p / 4;
  }

  lemma DecodeYear(y: nat, e: nat)
    requires e < MarchYearLength(y)
    ensures var n := MarchCount(y, e);
            && (4 * n + 3) / 146097 == y / 100
            && (4 * (n - 146097 * (y / 100) / 4) + 3) / 1461 == y % 100
            && n - 146097 * (y / 100) / 4 - 1461 * (y % 100) / 4 == e
  {
    var c, r := y / 100, y % 100;
    CenturySplit(y, e);
    LeapSplit(c, r);
    DecodeYearOfCentury(r, e);
    DecodeCentury(c, 1461 * r / 4 + e);
  }

  /** Every day count is the count of exactly one (March-based year, day of year) pair. */
  lemma EncodeYear(n: nat) returns (y: nat, e: nat)
    ensures e < MarchYearLength(y) && MarchCount(y, e) == n
  {
    var c := (4 * n + 3) / 146097;
    var k := n - 146097 * c / 4;
    EncodeCentury(n, c);
    var r := (4 * k + 3) / 1461;
    e := k - 1461 * r / 4;
    EncodeYearOfCentury(k, r, c);
    y := 100 * c + r;
    Division(y, 100, c, r);
    LeapSplit(c, r);
    CenturySplit(y, e);
  }

  lemma EncodeCentury(n: nat, c: nat)
    requires c == (4 * n + 3) / 146097
    ensures 0 <= n - 146097 * c / 4 < (if c % 4 == 3 then 36525 else 36524)
  {
    var q, p := c / 4, c % 4;
    assert 146097 * c / 4 == 146097 * q + 146097 * p / 4;
  }

  lemma EncodeYearOfCentury(k: nat, r: nat, c: nat)
    requires k < (if c % 4 == 3 then 36525 else 36524)
    requires r == (4 * k + 3) / 1461
    ensures r < 100
    ensures 0 <= k - 1461 * r / 4 < (if (r + 1) % 4 == 0 && (r == 99 ==> c % 4 == 3) then 366 else 365)
  {
    var q, p := r / 4, r % 4;
    assert 1461 * r / 4 == 1461 * q + 1461 * p / 4;
  }

  lemma DecodeMonth(m: nat, d: nat)
    requires m <= 11 && (m < 11 ==> MonthStart(m) + d < MonthStart(m + 1)) && (m == 11 ==> d < 29)
    ensures (5 * (MonthStart(m) + d) + 2) / 153 == m
  {
  }

  /** What DateOf computes, given the year, month and day that a day count consists of. */
  lemma DateOfCount(n: int32, y: nat, m: nat, k: nat)
    requires m <= 11 && MonthStart(m) + k < MarchYearLength(y)
    requires m < 11 ==> MonthStart(m) + k < MonthStart(m + 1)
    requires n as int == MarchCount(y, MonthStart(m) + k) + FIRST_JDN
    requires n as int <= LAST_JDN
    ensures var d := DateOf(n);
            && d.day as int == k + 1
            && d.month as int == (if m >= 10 then m - 9 else m + 3)
            && d.year as int == (if m >= 10 then y - 4799 else y - 4800)
  {
    var e := MonthStart(m) + k;
    DecodeYear(y, e);
    DecodeMonth(m, k);
    DateOfParts(n, y / 100, y % 100, e, m);
    assert y == 100 * (y / 100) + y % 100;
  }

  lemma DateOfParts(n: int32, b: int, d: int, e: int, m: int)
    requires FIRST_JDN <= n as int <= LAST_JDN
    requires b == (4 * (n as int + 32044) + 3) / 146097
    requires d == (4 * (n as int + 32044 - 146097 * b / 4) + 3) / 1461
    requires e == n as int + 32044 - 146097 * b / 4 - 1461 * d / 4
    requires m == (5 * e + 2) / 153 && 0 <= m <= 11
    ensures DateOf(n).year as int == b * 100 + d - 4800 + (if m >= 10 then 1 else 0)
    ensures DateOf(n).month as int == if m >= 10 then m - 9 else m + 3
    ensures DateOf(n).day as int == e - (153 * m + 2) / 5 + 1
  {
  }

  /** A calendar date, seen as a day of a March-based year. */
  lemma MarchForm(d: YearMonthDay)
    requires InRange(d)
    ensures var m, k := MarchMonth(d), d.day as int - 1;
            && 0 <= MarchYear(d) && 0 <= m <= 11 && 0 <= k
            && MonthStart(m) + k < MarchYearLength(MarchYear(d))
            && (m < 11 ==> MonthStart(m) + k < MonthStart(m + 1))
  {
    LeapShift(MarchYear(d) + 1);
    MonthStarts();
  }

  /** Conversely, a day of a March-based year is a calendar date. */
  lemma CalendarForm(y: nat, m: nat, k: nat, d: YearMonthDay)
    requires m <= 11 && MonthStart(m) + k < MarchYearLength(y)
    requires m < 11 ==> MonthStart(m) + k < MonthStart(m + 1)
    requires d.day as int == k + 1
    requires d.month as int == if m >= 10 then m - 9 else m + 3
    requires d.year as int == if m >= 10 then y - 4799 else y - 4800
    requires y <= 5879487
    ensures InRange(d) && MarchYear(d) == y && MarchMonth(d) == m
  {
    LeapShift(y + 1);
    MonthStarts();
  }

  lemma DaysOfMarchYear(y: nat)
    ensures MarchCount(y + 1, 0) == MarchCount(y, MarchYearLength(y))
  {
    var c, r := y / 100, y % 100;
    CenturySplit(y, MarchYearLength(y));
    CenturySplit(y + 1, 0);
    LeapSplit(c, r);
    if r == 99 {
      Division(y + 1, 100, c + 1, 0);
      CenturyLength(c);
    } else {
      Division(y + 1, 100, c, r + 1);
      YearLength(r);
    }
  }

  lemma YearLength(r: nat)
    ensures 1461 * (r + 1) / 4 - 1461 * r / 4 == if (r + 1) % 4 == 0 then 366 else 365
  {
    var q, p := r / 4, r % 4;
    assert r == 4 * q + p;
    assert 1461 * r == 4 * (1461 * q) + 1461 * p;
    assert 1461 * (r + 1) == 4 * (1461 * q) + 1461 * (p + 1);
  }

  lemma CenturyLength(c: nat)
    ensures 146097 * (c + 1) / 4 - 146097 * c / 4 == if c % 4 == 3 then 36525 else 36524
  {
    var q, p := c / 4, c % 4;
    assert c == 4 * q + p;
    assert 146097 * c == 4 * (146097 * q) + 146097 * p;
    assert 146097 * (c + 1) == 4 * (146097 * q) + 146097 * (p + 1);
  }

  // ----- theorems

  /** A date converted to its day number and back is the same date. */
  lemma DateRoundTrip(d: YearMonthDay)
    requires InRange(d) && JulianDayNumber(d) as int <= LAST_JDN
    ensures JulianDayNumber(d) as int >= FIRST_JDN
    ensures DateOf(JulianDayNumber(d)) == d
  {
    MarchForm(d);
    DateOfCount(JulianDayNumber(d), MarchYear(d), MarchMonth(d), d.day as int - 1);
  }

  /** A day number converted to its date and back is the same number, and the date is a calendar date. */
  lemma DayNumberRoundTrip(n: int32)
    requires FIRST_JDN <= n as int <= LAST_JDN
    ensures InRange(DateOf(n))
    ensures JulianDayNumber(DateOf(n)) == n
  {
    var y, e := EncodeYear(n as int - FIRST_JDN);
    var m := MonthOfDay(y, e);
    DateOfCount(n, y, m, e - MonthStart(m));
    CalendarForm(y, m, e - MonthStart(m), DateOf(n));
  }

  lemma MonthOfDay(y: nat, e: nat) returns (m: nat)
    requires e < MarchYearLength(y)
    ensures m <= 11 && MonthStart(m) <= e
    ensures m < 11 ==> e < MonthStart(m + 1)
  {
    m := (5 * e + 2) / 153;
  }

  /** The next day in March-based form: one day on, or the start of the next month or year. */
  lemma NextDayForm(d: YearMonthDay)
    requires InRange(d)
    ensures var n, y, m := NextDay(d), MarchYear(d), MarchMonth(d);
            || (n.day == d.day + 1 && MarchYear(n) == y && MarchMonth(n) == m)
            || (n.day == 1 && m < 11 && MarchYear(n) == y && MarchMonth(n) == m + 1 && MonthStart(m + 1) == MonthStart(m) + d.day as int)
            || (n.day == 1 && m == 11 && MarchYear(n) == y + 1 && MarchMonth(n) == 0 && MonthStart(11) + d.day as int == MarchYearLength(y))
  {
    LeapShift(MarchYear(d) + 1);
    MonthStarts();
  }

  /** Successive calendar days have successive numbers. */
  lemma NextDayIsNextNumber(d: YearMonthDay)
    requires InRange(d) && InRange(NextDay(d))
    ensures JulianDayNumber(NextDay(d)) == JulianDayNumber(d) + 1
  {
    NextDayForm(d);
    hide JulianDayNumber, NextDay;
    var y, e := MarchYear(d), MonthStart(MarchMonth(d)) + d.day as int - 1;
    DaysOfMarchYear(y);
    assert MarchCount(y, e + 1) == MarchCount(y, e) + 1;
    assert MonthStart(0) == 0;
  }

  lemma EpochDayNumber()
    ensures InRange(YearMonthDay(1970, 1, 1)) && JulianDayNumber(YearMonthDay(1970, 1, 1)) == 2440588
  {
  }

  /** What DateOf computes on the way, in the source's order of evaluation and without a bound on the integers. */
  ghost function Intermediates(n: int): seq<int> {
    var a := n + 32044;
    var b := (4 * a + 3) / 146097;
    var c := a - b * 146097 / 4;
    var d := (4 * c + 3) / 1461;
    [a, 4 * a, 4 * a + 3, b, b * 146097, c, 4 * c, 4 * c + 3, d, 1461 * d, c - 1461 * d / 4]
  }

  /** The bound on the day number is exact: it is where an intermediate result first overflows 32 bits. */
  lemma LastDayNumberIsExact(n: int)
    requires n >= FIRST_JDN
    ensures n <= LAST_JDN <==> forall i :: 0 <= i < |Intermediates(n)| ==> Intermediates(n)[i] <= INT32_MAX
  {
    assert Intermediates(n)[2] == 4 * (n + 32044) + 3;
  }

  /** The largest partial sum of the day-number expression, in the source's order of evaluation. */
  ghost function LargestPartialSum(d: YearMonthDay): int {
    d.day as int + (153 * MarchMonth(d) + 2) / 5 + MarchYear(d) * 365 + MarchYear(d) / 4
  }

  /** The bound on the year is exact: it is where the first day overflows 32 bits. */
  lemma LastYearIsExact(year: int32)
    requires year >= -4799
    ensures year as int <= LAST_YEAR <==>
      forall d: YearMonthDay :: ValidDate(d) && d.year == year ==> LargestPartialSum(d) <= INT32_MAX
  {
    if year as int <= LAST_YEAR {
      forall d: YearMonthDay | ValidDate(d) && d.year == year ensures LargestPartialSum(d) <= INT32_MAX {
        MarchForm(d);
      }
    } else {
      var d := YearMonthDay(year, 12, 31);
      assert ValidDate(d) && LargestPartialSum(d) > INT32_MAX;
    }
  }
}
