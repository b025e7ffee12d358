/** The Gregorian calendar arithmetic of Reactors/base/Date.cc and Date.h: the
    Julian day number of a date, the date of a Julian day number, the day of the
    week and the comparison of dates. */
module Calendar {

  // ---------- C arithmetic ----------

  /** C's `/`: truncates toward zero. */
  function CDiv(a: int, b: int): int
    requires b > 0
  {
    if a >= 0 then a / b else -((-a) / b)
  }

  /** C's `%`: the remainder takes the sign of the dividend. */
  function CMod(a: int, b: int): int
    requires b > 0
  {
    a - b * CDiv(a, b)
  }

  // ---------- Date.cc ----------

  datatype YearMonthDay = YearMonthDay(year: int, month: int, day: int)

  function GetJulianDayNumber(year: int, month: int, day: int): int {
    var a := CDiv(14 - month, 12);
    var y := year + 4800 - a;
    var m := month + 12 * a - 3;
    day + CDiv(153 * m + 2, 5) + y * 365 + CDiv(y, 4) - CDiv(y, 100) + CDiv(y, 400) - 32045
  }

  function GetYearMonthDay(julianDayNumber: int): YearMonthDay {
    var a := julianDayNumber + 32044;
    var b := CDiv(4 * a + 3, 146097);
    var c := a - CDiv(b * 146097, 4);
    var d := CDiv(4 * c + 3, 1461);
    var e := c - CDiv(1461 * d, 4);
    var m := CDiv(5 * e + 2, 153);
    YearMonthDay(b * 100 + d - 4800 + CDiv(m, 10),
                 m + 3 - 12 * CDiv(m, 10),
                 e - CDiv(153 * m + 2, 5) + 1)
  }

  /** The source computes this as getJulianDayNumber(1970, 1, 1); EpochIsThursday shows they agree. */
  const JULIAN_DAY_OF_1970_01_01 := 2440588
  const DAYS_PER_WEEK := 7

  // ---------- Date.h ----------

  datatype Date = Date(julianDayNumber: int) {
    function Ymd(): YearMonthDay {
      GetYearMonthDay(julianDayNumber)
    }

    function WeekDay(): int {
      CMod(julianDayNumber + 1, DAYS_PER_WEEK)
    }

    predicate Less(that: Date) {
      julianDayNumber < that.julianDayNumber
    }
  }

  function DateOf(year: int, month: int, day: int): Date {
    Date(GetJulianDayNumber(year, month, day))
  }

  // ---------- The calendar itself, independent of the formulas ----------

  predicate IsLeap(year: int) {
    year % 4 == 0 && (year % 100 != 0 || year % 400 == 0)
  }

  function DaysInMonth(year: int, month: int): int {
    if month == 2 then (if IsLeap(year) then 29 else 28)
    else if month in {4, 6, 9, 11} then 30
    else 31
  }

  predicate ValidDate(d: YearMonthDay) {
    1 <= d.month <= 12 && 1 <= d.day <= DaysInMonth(d.year, d.month)
  }

  predicate LexLess(x: YearMonthDay, y: YearMonthDay) {
    || x.year < y.year
    || (x.year == y.year && x.month < y.month)
    || (x.year == y.year && x.month == y.month && x.day < y.day)
  }

  /** The first date the formulas are good for. */
  const FIRST_DATE := YearMonthDay(-4800, 3, 1)
  const FIRST_DAY_NUMBER := -32044

  predicate InRange(d: YearMonthDay) {
    ValidDate(d) && !LexLess(d, FIRST_DATE)
  }

  /** The next page of the calendar. */
  function NextDate(d: YearMonthDay): YearMonthDay {
    if d.day < DaysInMonth(d.year, d.month) then d.(day := d.day + 1)
    else if d.month < 12 then YearMonthDay(d.year, d.month + 1, 1)
    else YearMonthDay(d.year + 1, 1, 1)
  }

  /** `n` pages later. */
  function Advance(d: YearMonthDay, n: nat): YearMonthDay
    decreases n
  {
    if n == 0 then d else NextDate(Advance(d, n - 1))
  }

  function Number(d: YearMonthDay): int {
    GetJulianDayNumber(d.year, d.month, d.day)
  }

  // ---------- Years counted from 1 March ----------
  // A date is split as (y, m, r): the year that began last 1 March, counted from
  // -4800, the month counted from March, and the days since the month began.

  function MarchYear(d: YearMonthDay): int {
    if d.month <= 2 then d.year + 4799 else d.year + 4800
  }

  function MarchMonth(d: YearMonthDay): int {
    if d.month <= 2 then d.month + 9 else d.month - 3
  }

  /** Days before month `m` in a year that begins on 1 March. */
  function MonthStart(m: nat): nat {
    (153 * m + 2) / 5
  }

  /** Days from 1 March -4800 to 1 March of year `y`. */
  function YearStart(y: nat): nat {
    y * 365 + y / 4 - y / 100 + y / 400
  }

  function YearLength(y: nat): nat {
    if IsLeap(y + 1) then 366 else 365
  }

  lemma MonthLength(d: YearMonthDay)
    requires ValidDate(d)
    ensures 0 <= MarchMonth(d) <= 11
    ensures MarchMonth(d) < 11 ==> MonthStart(MarchMonth(d)) + DaysInMonth(d.year, d.month) == MonthStart(MarchMonth(d) + 1)
    ensures MarchMonth(d) == 11 && MarchYear(d) >= 0 ==>
              MonthStart(11) + DaysInMonth(d.year, d.month) == YearLength(MarchYear(d))
  {
    LeapShift(d.year + 4800);
  }

  lemma NumberSplits(d: YearMonthDay)
    requires InRange(d)
    ensures MarchYear(d) >= 0 && 0 <= MarchMonth(d) <= 11
    ensures Number(d) - FIRST_DAY_NUMBER == YearStart(MarchYear(d)) + MonthStart(MarchMonth(d)) + d.day - 1
  {
  }

  lemma YearStartStep(y: nat)
    ensures YearStart(y + 1) == YearStart(y) + YearLength(y)
  {
    QuarterStep(y);
    CenturyStep(y);
    CycleStep(y);
    Divides(y + 1);
  }

  lemma QuarterStep(y: nat)
    ensures (y + 1) / 4 - y / 4 == if (y + 1) % 4 == 0 then 1 else 0
  {
  }

  lemma CenturyStep(y: nat)
    ensures (y + 1) / 100 - y / 100 == if (y + 1) % 100 == 0 then 1 else 0
  {
  }

  lemma CycleStep(y: nat)
    ensures (y + 1) / 400 - y / 400 == if (y + 1) % 400 == 0 then 1 else 0
  {
  }

  lemma Divides(z: nat)
    ensures z % 400 == 0 ==> z % 100 == 0
    ensures z % 100 == 0 ==> z % 4 == 0
  {
    if z % 400 == 0 {
      var q := z / 400;
      assert z == 100 * (4 * q);
    }
    if z % 100 == 0 {
      var q := z / 100;
      assert z == 4 * (25 * q);
    }
  }

  lemma {:induction false} YearStartMonotone(x: nat, y: nat)
    requires x < y
    ensures YearStart(x) + YearLength(x) <= YearStart(y)
    decreases y - x
  {
    YearStartStep(x);
    if x + 1 < y { YearStartMonotone(x + 1, y); }
  }

  lemma DayOfMarchYear(d: YearMonthDay)
    requires InRange(d)
    ensures 0 <= MonthStart(MarchMonth(d)) + d.day - 1 < YearLength(MarchYear(d))
  {
    MonthLength(d);
    NumberSplits(d);
    assert MarchMonth(d) < 11 ==> MonthStart(MarchMonth(d) + 1) <= MonthStart(11);
  }

  // ---------- The three nested divisions ----------

  /** (4a + 3) / k recovers b from any a in the b-th run of floor(kb / 4). */
  lemma QuarterDivision146097(a: int, b: int)
    requires b >= 0 && b * 146097 / 4 <= a < (b + 1) * 146097 / 4
    ensures (4 * a + 3) / 146097 == b
  {
  }

  lemma QuarterDivision1461(a: int, b: int)
    requires b >= 0 && b * 1461 / 4 <= a < (b + 1) * 1461 / 4
    ensures (4 * a + 3) / 1461 == b
  {
  }

  lemma MonthDivision(e: int, m: int)
    requires 0 <= m <= 11 && MonthStart(m) <= e < MonthStart(m + 1)
    ensures (5 * e + 2) / 153 == m
  {
  }

  /** A century starts floor(146097 b / 4) days in, a year of it floor(1461 d / 4) later. */
  lemma CenturySplit(y: nat)
    ensures YearStart(y) == (y / 100) * 146097 / 4 + (y % 100) * 1461 / 4
  {
    var b, d := y / 100, y % 100;
    assert y == 100 * b + d;
    assert y / 4 == 25 * b + d / 4;
    assert y / 400 == b / 4;
    assert b * 146097 / 4 == 36524 * b + b / 4;
    assert d * 1461 / 4 == 365 * d + d / 4;
  }

  lemma YearWithinCentury(y: nat)
    ensures var b, d := y / 100, y % 100;
            && d * 1461 / 4 + YearLength(y) <= (d + 1) * 1461 / 4
            && b * 146097 / 4 + d * 1461 / 4 + YearLength(y) <= (b + 1) * 146097 / 4
  {
    var b, d := y / 100, y % 100;
    assert y == 100 * b + d;
    assert d * 1461 / 4 == 365 * d + d / 4;
    assert (d + 1) * 1461 / 4 == 365 * (d + 1) + (d + 1) / 4;
    assert b * 146097 / 4 == 36524 * b + b / 4;
    assert (b + 1) * 146097 / 4 == 36524 * (b + 1) + (b + 1) / 4;
    assert IsLeap(y + 1) ==> (d + 1) % 4 == 0;
    if d == 99 {
      assert y + 1 == 100 * (b + 1);
      assert IsLeap(y + 1) ==> (b + 1) % 4 == 0;
    }
  }

  /** The code's divisions undo the split, for any year and day of that year. */
  lemma DivisionsInvert(a: int, y: nat, e: nat, b: nat, d: nat)
    requires a == YearStart(y) + e && e < YearLength(y)
    requires b == y / 100 && d == y % 100
    ensures b == (4 * a + 3) / 146097
    ensures a - b * 146097 / 4 == d * 1461 / 4 + e
    ensures d == (4 * (d * 1461 / 4 + e) + 3) / 1461
  {
    CenturySplit(y);
    YearWithinCentury(y);
    QuarterDivision146097(a, b);
    QuarterDivision1461(d * 1461 / 4 + e, d);
  }

  /** The code's result, from the values of its intermediate variables. */
  lemma Assemble(n: int, b: nat, c: nat, d: nat, e: nat, m: nat)
    requires n + 32044 >= 0
    requires b == (4 * (n + 32044) + 3) / 146097
    requires c == n + 32044 - b * 146097 / 4
    requires d == (4 * c + 3) / 1461
    requires e == c - d * 1461 / 4
    requires m == (5 * e + 2) / 153
    ensures GetYearMonthDay(n) ==
            YearMonthDay(b * 100 + d - 4800 + m / 10, m + 3 - 12 * (m / 10), e - (153 * m + 2) / 5 + 1)
  {
    assert 1461 * d == d * 1461;
  }

  /** What the code returns for day `e`, in month `m`, of March year `y`. */
  lemma DateOfSplit(n: int, y: nat, m: nat, e: nat)
    requires n - FIRST_DAY_NUMBER == YearStart(y) + e && e < YearLength(y)
    requires m <= 11 && MonthStart(m) <= e < MonthStart(m + 1)
    ensures GetYearMonthDay(n) == FromSplit(y, m, e)
  {
    var b, d := y / 100, y % 100;
    DivisionsInvert(n + 32044, y, e, b, d);
    MonthDivision(e, m);
    Assemble(n, b, d * 1461 / 4 + e, d, e, m);
    FromSplitIsCode(y, b, d, m, e);
  }

  function FromSplit(y: nat, m: nat, e: nat): YearMonthDay {
    YearMonthDay(y - 4800 + (if m >= 10 then 1 else 0), if m >= 10 then m - 9 else m + 3, e - MonthStart(m) + 1)
  }

  lemma FromSplitIsCode(y: nat, b: nat, d: nat, m: nat, e: nat)
    requires b == y / 100 && d == y % 100 && m <= 11
    ensures YearMonthDay(b * 100 + d - 4800 + m / 10, m + 3 - 12 * (m / 10), e - (153 * m + 2) / 5 + 1) ==
            FromSplit(y, m, e)
  {
  }

  // ---------- Main results ----------

  /** Every date from -4800-03-01 on is recovered from its day number. */
  lemma NumberThenDate(d: YearMonthDay)
    requires InRange(d)
    ensures Number(d) >= FIRST_DAY_NUMBER
    ensures GetYearMonthDay(Number(d)) == d
  {
    NumberSplits(d);
    MonthLength(d);
    DayOfMarchYear(d);
    SplitThenDate(Number(d), d, MarchYear(d), MarchMonth(d));
  }

  lemma SplitThenDate(n: int, d: YearMonthDay, y: nat, m: nat)
    requires ValidDate(d) && y == MarchYear(d) && m == MarchMonth(d) <= 11
    requires n - FIRST_DAY_NUMBER == YearStart(y) + MonthStart(m) + d.day - 1
    requires MonthStart(m) + d.day - 1 < YearLength(y)
    requires m < 11 ==> MonthStart(m) + d.day <= MonthStart(m + 1)
    ensures GetYearMonthDay(n) == d
  {
    DateOfSplit(n, y, m, MonthStart(m) + d.day - 1);
  }

  /** The March year a day count falls in. */
  lemma {:induction false} FindYear(a: nat, guess: nat) returns (y: nat)
    requires YearStart(guess) <= a
    ensures YearStart(y) <= a < YearStart(y) + YearLength(y)
    decreases a - YearStart(guess)
  {
    YearStartStep(guess);
    if a < YearStart(guess + 1) {
      y := guess;
    } else {
      y := FindYear(a, guess + 1);
    }
  }

  lemma FindMonth(e: nat, y: nat) returns (m: nat)
    requires e < YearLength(y)
    ensures m <= 11 && MonthStart(m) <= e < MonthStart(m + 1)
  {
    m := (5 * e + 2) / 153;
  }

  /** Every day number from -32044 on is a real Gregorian date, and is that date's number. */
  lemma DateThenNumber(n: int)
    requires n >= FIRST_DAY_NUMBER
    ensures InRange(GetYearMonthDay(n))
    ensures Number(GetYearMonthDay(n)) == n
  {
    var a := n - FIRST_DAY_NUMBER;
    var y := FindYear(a, 0);
    var e := a - YearStart(y);
    var m := FindMonth(e, y);
    DateOfSplit(n, y, m, e);
    var d := GetYearMonthDay(n);
    SplitIsValid(y, m, e, d);
    NumberSplits(d);
  }

  lemma SplitIsValid(y: nat, m: nat, e: nat, d: YearMonthDay)
    requires e < YearLength(y)
    requires m <= 11 && MonthStart(m) <= e < MonthStart(m + 1)
    requires d == FromSplit(y, m, e)
    ensures InRange(d) && MarchYear(d) == y && MarchMonth(d) == m
  {
    if m < 11 {
      MonthGap(m, d.year, d.month);
    } else {
      assert MonthStart(11) == 337;
      LeapShift(y + 1);
    }
  }

  lemma MonthGap(m: nat, year: int, month: int)
    requires m < 11 && month == if m >= 10 then m - 9 else m + 3
    ensures MonthStart(m + 1) - MonthStart(m) == DaysInMonth(year, month)
  {
  }

  lemma LeapShift(y: int)
    ensures IsLeap(y - 4800) == IsLeap(y)
  {
    RemainderShift4(y, y / 4, y % 4);
    RemainderShift100(y, y / 100, y % 100);
    RemainderShift400(y, y / 400, y % 400);
  }

  lemma RemainderShift4(y: int, q: int, r: int)
    requires y == 4 * q + r && 0 <= r < 4
    ensures (y - 4800) % 4 == r
  {
    assert y - 4800 == 4 * (q - 1200) + r;
  }

  lemma RemainderShift100(y: int, q: int, r: int)
    requires y == 100 * q + r && 0 <= r < 100
    ensures (y - 4800) % 100 == r
  {
    assert y - 4800 == 100 * (q - 48) + r;
  }

  lemma RemainderShift400(y: int, q: int, r: int)
    requires y == 400 * q + r && 0 <= r < 400
    ensures (y - 4800) % 400 == r
  {
    assert y - 4800 == 400 * (q - 12) + r;
  }

  /** Turning the page adds exactly one to the number: month ends, leap days and centuries included. */
  lemma NextDateIsNextNumber(d: YearMonthDay)
    requires InRange(d)
    ensures InRange(NextDate(d))
    ensures Number(NextDate(d)) == Number(d) + 1
  {
    hide Number, YearStart, YearLength, IsLeap;
    NumberSplits(d);
    MonthLength(d);
    var next := NextDate(d);
    assert InRange(next);
    NumberSplits(next);
    if next.day == d.day + 1 {
    } else if MarchMonth(d) < 11 {
      assert MarchYear(next) == MarchYear(d) && MarchMonth(next) == MarchMonth(d) + 1;
    } else {
      assert MarchYear(next) == MarchYear(d) + 1 && MarchMonth(next) == 0;
      YearStartStep(MarchYear(d));
    }
  }

  lemma {:induction false} AdvanceCounts(d: YearMonthDay, n: nat)
    requires InRange(d)
    ensures InRange(Advance(d, n))
    ensures Number(Advance(d, n)) == Number(d) + n
    decreases n
  {
    if n > 0 {
      AdvanceCounts(d, n - 1);
      NextDateIsNextNumber(Advance(d, n - 1));
    }
  }

  /** The numbers count calendar pages: the date of the number n further on is the n-th next page. */
  lemma NumbersCountDays(d: YearMonthDay, n: nat)
    requires InRange(d)
    ensures Number(Advance(d, n)) == Number(d) + n
    ensures GetYearMonthDay(Number(d) + n) == Advance(d, n)
  {
    hide *;
    AdvanceCounts(d, n);
    DateOfNumber(Advance(d, n), Number(d) + n);
  }

  lemma DateOfNumber(d: YearMonthDay, n: int)
    requires InRange(d) && n == Number(d)
    ensures GetYearMonthDay(n) == d
  {
    NumberThenDate(d);
  }

  lemma LexLessIsNumberLess(x: YearMonthDay, y: YearMonthDay)
    requires InRange(x) && InRange(y) && LexLess(x, y)
    ensures Number(x) < Number(y)
  {
    hide Number, YearStart, YearLength, IsLeap;
    NumberSplits(x); NumberSplits(y);
    DayOfMarchYear(x); DayOfMarchYear(y);
    if MarchYear(x) < MarchYear(y) {
      YearStartMonotone(MarchYear(x), MarchYear(y));
    } else {
      MonthLength(x);
      assert MarchMonth(x) < MarchMonth(y) ==> MonthStart(MarchMonth(x) + 1) <= MonthStart(MarchMonth(y));
    }
  }

  /** Date's `<` is the lexicographic order on (year, month, day), and `==` is equality of dates. */
  lemma LessIsLexicographic(x: YearMonthDay, y: YearMonthDay)
    requires InRange(x) && InRange(y)
    ensures DateOf(x.year, x.month, x.day).Less(DateOf(y.year, y.month, y.day)) <==> LexLess(x, y)
    ensures DateOf(x.year, x.month, x.day) == DateOf(y.year, y.month, y.day) <==> x == y
  {
    if LexLess(x, y) {
      LexLessIsNumberLess(x, y);
    } else if x != y {
      LexLessIsNumberLess(y, x);
    }
  }

  // ---------- Where the formulas stop being good ----------

  lemma WholeMultiple(p: nat, n: int)
    requires n > 0
    ensures 0 <= p / n * n <= p
  {
    assert p == n * (p / n) + p % n;
    assert n * (p / n) == p / n * n;
  }

  lemma QuarterStaysBelow(a: int, q: int)
    requires 0 <= q <= -4 * a - 3
    ensures a - CDiv(-q, 4) <= -1
  {
  }

  /** The truncated divisions take a negative rest to a negative rest. */
  lemma RestStaysNegative(a: int, n: int)
    requires a <= -1 && n > 0
    ensures a - CDiv(CDiv(4 * a + 3, n) * n, 4) <= -1
  {
    var p := -4 * a - 3;
    var k := p / n;
    WholeMultiple(p, n);
    QuarterStaysBelow(a, k * n);
    assert CDiv(4 * a + 3, n) == -k && -k * n == -(k * n);
  }

  lemma NoDayLeft(e: int)
    requires e <= -1
    ensures e - CDiv(153 * CDiv(5 * e + 2, 153) + 2, 5) + 1 <= 0
  {
    var p := -5 * e - 2;
    var j := p / 153;
    assert CDiv(5 * e + 2, 153) == -j;
    assert 0 <= 153 * j <= p;
    if j > 0 { assert CDiv(153 * -j + 2, 5) == -((153 * j - 2) / 5); }
  }

  lemma NoDateBefore(n: int)
    requires n < FIRST_DAY_NUMBER
    ensures GetYearMonthDay(n).day <= 0
  {
    hide CDiv;
    var a := n + 32044;
    var b := CDiv(4 * a + 3, 146097);
    RestStaysNegative(a, 146097);
    var c := a - CDiv(b * 146097, 4);
    var d := CDiv(4 * c + 3, 1461);
    RestStaysNegative(c, 1461);
    assert 1461 * d == d * 1461;
    NoDayLeft(c - CDiv(1461 * d, 4));
  }

  /** A day number turns into a real date if and only if it is at least that of 1 March -4800. */
  lemma RealDateIff(n: int)
    ensures ValidDate(GetYearMonthDay(n)) <==> n >= FIRST_DAY_NUMBER
  {
    hide GetYearMonthDay;
    if n >= FIRST_DAY_NUMBER { DateThenNumber(n); } else { NoDateBefore(n); }
  }

  /** A real date survives the trip through its number if and only if it is 1 March -4800 or later. */
  lemma DateSurvivesIff(d: YearMonthDay)
    requires ValidDate(d)
    ensures GetYearMonthDay(Number(d)) == d <==> InRange(d)
  {
    hide GetYearMonthDay, Number, LexLess;
    if InRange(d) {
      NumberThenDate(d);
    } else if Number(d) >= FIRST_DAY_NUMBER {
      DateThenNumber(Number(d));
    } else {
      NoDateBefore(Number(d));
    }
  }

  /** The first failure: the day before the first date shares its number. */
  lemma BeforeFirstDateCollides()
    ensures ValidDate(YearMonthDay(-4800, 2, 29))
    ensures NextDate(YearMonthDay(-4800, 2, 29)) == FIRST_DATE
    ensures Number(YearMonthDay(-4800, 2, 29)) == Number(FIRST_DATE) == FIRST_DAY_NUMBER
  {
  }

  lemma WeekDayIsRemainder(n: int)
    requires n >= -1
    ensures Date(n).WeekDay() == (n + 1) % 7
  {
    var k := n + 1;
    assert CDiv(k, 7) == k / 7;
    assert k - 7 * (k / 7) == k % 7;
  }

  /** Below that the truncating remainder is zero or negative. */
  lemma WeekDayNotPositive(n: int)
    requires n < -1
    ensures -6 <= Date(n).WeekDay() <= 0
    ensures Date(n).WeekDay() == 0 ==> Date(n + 1).WeekDay() != 1
  {
    var k := -(n + 1);
    assert CDiv(n + 1, 7) == -(k / 7);
    assert Date(n).WeekDay() == -(k % 7);
    if k % 7 == 0 {
      assert k >= 7 && CDiv(n + 2, 7) == -((k - 1) / 7);
    }
  }

  /** weekDay() is one of 0..6 and the next day's is the cyclically next, if and only if the day
      number is at least -1. */
  lemma WeekDayAdvancesIff(n: int)
    ensures var w, next := Date(n).WeekDay(), Date(n + 1).WeekDay();
            (0 <= w < 7 && next == if w == 6 then 0 else w + 1) <==> n >= -1
  {
    hide *;
    if n >= -1 {
      WeekDayIsRemainder(n);
      WeekDayIsRemainder(n + 1);
      NextRemainder(n + 1, (n + 1) / 7, (n + 1) % 7);
    } else {
      WeekDayNotPositive(n);
    }
  }

  /** weekDay() is the day number plus one modulo 7, if and only if the day number is at least -1 or
      one less than a multiple of 7. */
  lemma WeekDayIsModuloIff(n: int)
    ensures Date(n).WeekDay() == (n + 1) % 7 <==> n >= -1 || (n + 1) % 7 == 0
  {
    if n >= -1 {
      WeekDayIsRemainder(n);
    } else {
      var k := -(n + 1);
      assert CDiv(n + 1, 7) == -(k / 7);
      assert Date(n).WeekDay() == -(k % 7);
      assert (n + 1) % 7 == (-k) % 7;
      assert (-k) % 7 == if k % 7 == 0 then 0 else 7 - k % 7;
    }
  }

  lemma NextRemainder(k: int, q: int, r: int)
    requires k == 7 * q + r && 0 <= r < 7
    ensures (k + 1) % 7 == if r == 6 then 0 else r + 1
  {
    if r == 6 {
      assert k + 1 == 7 * (q + 1);
    } else {
      assert k + 1 == 7 * q + (r + 1);
    }
  }

  /** The anchor: 1970-01-01 is day number 2440588, a Thursday. */
  lemma EpochIsThursday()
    ensures GetJulianDayNumber(1970, 1, 1) == JULIAN_DAY_OF_1970_01_01
    ensures Date(JULIAN_DAY_OF_1970_01_01).WeekDay() == 4
  {
    WeekDayIsRemainder(2440588);
  }
}
