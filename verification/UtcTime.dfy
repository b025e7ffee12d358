/** The UTC half of Reactors/base/TimeZone.cc: breaking a count of seconds since
    the epoch into calendar fields, and putting the fields together again. */
module UtcTime {
  import opened Calendar

  const SECONDS_PER_DAY := 24 * 60 * 60

  /** The fields of `struct tm` that the code fills; `tm_zone` is not modelled. */
  datatype Tm = Tm(sec: int, min: int, hour: int, mday: int, mon: int, year: int,
                   wday: int, yday: int, isdst: bool, gmtoff: int)

  const ZERO_TM := Tm(0, 0, 0, 0, 0, 0, 0, 0, false, 0)

  // ---------- Specification functions ----------

  function Hms(seconds: nat, utc: Tm): Tm {
    utc.(sec := seconds % 60, min := seconds / 60 % 60, hour := seconds / 60 / 60)
  }

  /** The day and the second of the day, after the correction for negative times. */
  function DayAndSecond(t: int): (int, int) {
    var seconds := CMod(t, SECONDS_PER_DAY);
    var days := CDiv(t, SECONDS_PER_DAY);
    if seconds < 0 then (days - 1, seconds + SECONDS_PER_DAY) else (days, seconds)
  }

  function UtcFields(days: int, seconds: nat, yday: bool): Tm {
    var date := Date(days + JULIAN_DAY_OF_1970_01_01);
    var ymd := date.Ymd();
    Hms(seconds, ZERO_TM).(
      year := ymd.year - 1900, mon := ymd.month - 1, mday := ymd.day, wday := date.WeekDay(),
      yday := if yday then date.julianDayNumber - DateOf(ymd.year, 1, 1).julianDayNumber else 0)
  }

  function ToUtc(t: int, yday: bool): Tm {
    DayAndSecondRange(t);
    UtcFields(DayAndSecond(t).0, DayAndSecond(t).1, yday)
  }

  function SecondsFrom(year: int, month: int, day: int, hour: int, minute: int, seconds: int): int {
    var secondsInDay := hour * 3600 + minute * 60 + seconds;
    var days := DateOf(year, month, day).julianDayNumber - JULIAN_DAY_OF_1970_01_01;
    days * SECONDS_PER_DAY + secondsInDay
  }

  function FromUtc(utc: Tm): int {
    SecondsFrom(utc.year + 1900, utc.mon + 1, utc.mday, utc.hour, utc.min, utc.sec)
  }

  /** The first second whose day the calendar formulas are good for: 1 March -4800. */
  const FIRST_SECOND := (FIRST_DAY_NUMBER - JULIAN_DAY_OF_1970_01_01) * SECONDS_PER_DAY

  predicate TmDateInRange(utc: Tm) {
    InRange(YearMonthDay(utc.year + 1900, utc.mon + 1, utc.mday))
  }

  /** A real date and a real time of day. */
  predicate ValidFields(utc: Tm) {
    TmDateInRange(utc) && 0 <= utc.hour < 24 && 0 <= utc.min < 60 && 0 <= utc.sec < 60
  }

  /** The zero-based day of the year, counted month by month. */
  function DaysBefore(year: int, month: int): int {
    if month <= 1 then 0 else DaysBefore(year, month - 1) + DaysInMonth(year, month - 1)
  }

  // ---------- The code, filling the struct step by step ----------

  method FillHms(seconds: nat, utc: Tm) returns (r: Tm)
    ensures r == Hms(seconds, utc)
    ensures 3600 * r.hour + 60 * r.min + r.sec == seconds && 0 <= r.min < 60 && 0 <= r.sec < 60
  {
    r := utc.(sec := seconds % 60);
    var minutes := seconds / 60;
    r := r.(min := minutes % 60);
    r := r.(hour := minutes / 60);
  }

  method ToUtcTime(secondsSinceEpoch: int, yday: bool) returns (utc: Tm)
    ensures utc == ToUtc(secondsSinceEpoch, yday)
  {
    hide CDiv, GetYearMonthDay, GetJulianDayNumber;
    utc := ZERO_TM;
    var seconds := CMod(secondsSinceEpoch, SECONDS_PER_DAY);
    var days := CDiv(secondsSinceEpoch, SECONDS_PER_DAY);
    DayAndSecondRange(secondsSinceEpoch);
    if seconds < 0 {
      seconds := seconds + SECONDS_PER_DAY;
      days := days - 1;
    }
    utc := FillHms(seconds, utc);
    var date := Date(days + JULIAN_DAY_OF_1970_01_01);
    var ymd := date.Ymd();
    utc := utc.(year := ymd.year - 1900);
    utc := utc.(mon := ymd.month - 1);
    utc := utc.(mday := ymd.day);
    utc := utc.(wday := date.WeekDay());
    if yday {
      var startOfYear := DateOf(ymd.year, 1, 1);
      utc := utc.(yday := date.julianDayNumber - startOfYear.julianDayNumber);
    }
  }

  // ---------- Lemmas ----------

  /** The truncating division and its correction amount to flooring, for negative times too. */
  lemma DayAndSecondRange(t: int)
    ensures 0 <= DayAndSecond(t).1 < SECONDS_PER_DAY
    ensures DayAndSecond(t).0 * SECONDS_PER_DAY + DayAndSecond(t).1 == t
  {
    if t < 0 {
      var q, r := (-t) / SECONDS_PER_DAY, (-t) % SECONDS_PER_DAY;
      assert -t == SECONDS_PER_DAY * q + r;
      assert CMod(t, SECONDS_PER_DAY) == -r;
    }
  }

  lemma HmsInverts(hour: int, min: int, sec: int, utc: Tm)
    requires 0 <= hour < 24 && 0 <= min < 60 && 0 <= sec < 60
    ensures Hms(hour * 3600 + min * 60 + sec, utc) == utc.(hour := hour, min := min, sec := sec)
  {
    var s := hour * 3600 + min * 60 + sec;
    assert s / 60 == hour * 60 + min;
  }

  lemma HmsSplits(seconds: nat)
    requires seconds < SECONDS_PER_DAY
    ensures var r := Hms(seconds, ZERO_TM);
            && 0 <= r.hour < 24 && 0 <= r.min < 60 && 0 <= r.sec < 60
            && 3600 * r.hour + 60 * r.min + r.sec == seconds
  {
  }

  lemma DaySecondUnique(days: int, seconds: int, t: int)
    requires 0 <= seconds < SECONDS_PER_DAY && t == days * SECONDS_PER_DAY + seconds
    ensures DayAndSecond(t) == (days, seconds)
  {
    DayAndSecondRange(t);
  }

  lemma {:induction false} DaysBeforeIsNumber(year: int, month: nat)
    requires 1 <= month <= 12 && year >= -4799
    ensures Number(YearMonthDay(year, month, 1)) == Number(YearMonthDay(year, 1, 1)) + DaysBefore(year, month)
  {
    hide Number, IsLeap;
    if month > 1 {
      DaysBeforeIsNumber(year, month - 1);
      NextMonthNumber(year, month - 1);
    }
  }

  lemma DayShift(year: int, month: int, day: int)
    ensures Number(YearMonthDay(year, month, day)) == Number(YearMonthDay(year, month, 1)) + day - 1
  {
  }

  lemma FieldsDate(days: int, seconds: nat, yday: bool)
    requires days + JULIAN_DAY_OF_1970_01_01 >= FIRST_DAY_NUMBER && seconds < SECONDS_PER_DAY
    ensures var utc := UtcFields(days, seconds, yday);
            && ValidFields(utc)
            && FromUtc(utc) == days * SECONDS_PER_DAY + seconds
  {
    hide CDiv, CMod, GetYearMonthDay, GetJulianDayNumber, ValidDate;
    DateThenNumber(days + JULIAN_DAY_OF_1970_01_01);
    HmsSplits(seconds);
  }

  /** fromUtcTime undoes toUtcTime from 1 March -4800 on, times before 1970 included, and every field is in range. */
  lemma UtcRoundTrip(t: int, yday: bool)
    requires t >= FIRST_SECOND
    ensures ValidFields(ToUtc(t, yday))
    ensures FromUtc(ToUtc(t, yday)) == t
  {
    DayAndSecondRange(t);
    FieldsDate(DayAndSecond(t).0, DayAndSecond(t).1, yday);
  }

  /** toUtcTime undoes fromUtcTime on every real date and time of day. */
  lemma FieldsRoundTrip(utc: Tm, yday: bool)
    requires ValidFields(utc)
    ensures FromUtc(utc) >= FIRST_SECOND
    ensures var r := ToUtc(FromUtc(utc), yday);
            && (r.year, r.mon, r.mday, r.hour, r.min, r.sec) ==
               (utc.year, utc.mon, utc.mday, utc.hour, utc.min, utc.sec)
  {
    hide CDiv, CMod, GetYearMonthDay, GetJulianDayNumber, ValidDate, DayAndSecond, Hms;
    var d := YearMonthDay(utc.year + 1900, utc.mon + 1, utc.mday);
    NumberThenDate(d);
    var days := Number(d) - JULIAN_DAY_OF_1970_01_01;
    var seconds := utc.hour * 3600 + utc.min * 60 + utc.sec;
    DaySecondUnique(days, seconds, FromUtc(utc));
    HmsInverts(utc.hour, utc.min, utc.sec, ZERO_TM);
  }

  /** For a real date and time of day: toUtcTime gives the fields back if and only if the date is
      1 March -4800 or later. */
  lemma FieldsRoundTripIff(utc: Tm, yday: bool)
    requires ValidDate(YearMonthDay(utc.year + 1900, utc.mon + 1, utc.mday))
    requires 0 <= utc.hour < 24 && 0 <= utc.min < 60 && 0 <= utc.sec < 60
    ensures var r := ToUtc(FromUtc(utc), yday);
            ((r.year, r.mon, r.mday, r.hour, r.min, r.sec) ==
             (utc.year, utc.mon, utc.mday, utc.hour, utc.min, utc.sec)) <==> TmDateInRange(utc)
  {
    hide CDiv, CMod, GetYearMonthDay, GetJulianDayNumber, ValidDate, DayAndSecond, Hms, LexLess;
    var d := YearMonthDay(utc.year + 1900, utc.mon + 1, utc.mday);
    DateSurvivesIff(d);
    var days := Number(d) - JULIAN_DAY_OF_1970_01_01;
    var seconds := utc.hour * 3600 + utc.min * 60 + utc.sec;
    DaySecondUnique(days, seconds, FromUtc(utc));
    HmsInverts(utc.hour, utc.min, utc.sec, ZERO_TM);
  }

  /** toUtcTime fills in a real date and time of day if and only if the time is not before 1 March -4800. */
  lemma FieldsRealIff(t: int, yday: bool)
    ensures ValidFields(ToUtc(t, yday)) <==> t >= FIRST_SECOND
  {
    hide CDiv, CMod, GetYearMonthDay, GetJulianDayNumber, ValidDate, DayAndSecond;
    DayAndSecondRange(t);
    var (days, seconds) := DayAndSecond(t);
    RealDateIff(days + JULIAN_DAY_OF_1970_01_01);
    if t >= FIRST_SECOND { UtcRoundTrip(t, yday); }
  }

  /** 1 January -4799: the formulas give 1 January -4800 a number one day too late. */
  const FIRST_YDAY_SECOND := (-31738 - JULIAN_DAY_OF_1970_01_01) * SECONDS_PER_DAY

  lemma {:induction false} FirstYearDays(month: nat)
    requires 3 <= month <= 12
    ensures Number(YearMonthDay(-4800, month, 1)) == Number(YearMonthDay(-4800, 1, 1)) + DaysBefore(-4800, month) - 1
    decreases month
  {
    if month == 3 {
      DaysBeforeFirstDate();
    } else {
      FirstYearDays(month - 1);
      NextMonthNumber(-4800, month - 1);
    }
  }

  lemma NextMonthNumber(year: int, month: int)
    requires 1 <= month < 12 && InRange(YearMonthDay(year, month, 1))
    ensures Number(YearMonthDay(year, month + 1, 1)) == Number(YearMonthDay(year, month, 1)) + DaysInMonth(year, month)
  {
    hide Number, IsLeap;
    var last := YearMonthDay(year, month, DaysInMonth(year, month));
    NextDateIsNextNumber(last);
    assert NextDate(last) == YearMonthDay(year, month + 1, 1);
    DayShift(year, month, last.day);
  }

  /** The year turns at the number of 1 January -4799. */
  lemma FirstYearIff(d: YearMonthDay)
    requires InRange(d)
    ensures d.year >= -4799 <==> Number(d) >= -31738
  {
    var turn := YearMonthDay(-4799, 1, 1);
    assert Number(turn) == -31738 && InRange(turn);
    hide Number, IsLeap, DaysInMonth;
    if d.year >= -4799 {
      if d != turn { LexLessIsNumberLess(turn, d); }
    } else {
      LexLessIsNumberLess(d, turn);
    }
  }

  lemma YdayOfDate(d: YearMonthDay)
    requires InRange(d)
    ensures Number(d) - Number(YearMonthDay(d.year, 1, 1)) ==
            DaysBefore(d.year, d.month) + d.day - 1 - if d.year >= -4799 then 0 else 1
  {
    hide Number, DaysBefore, DaysInMonth;
    DayShift(d.year, d.month, d.day);
    if d.year >= -4799 {
      DaysBeforeIsNumber(d.year, d.month);
    } else {
      FirstYearDays(d.month);
    }
  }

  lemma YdayInYear(d: YearMonthDay)
    requires InRange(d)
    ensures 0 <= DaysBefore(d.year, d.month) + d.day - 1 - (if d.year >= -4799 then 0 else 1)
    ensures DaysBefore(d.year, d.month) + d.day <= if IsLeap(d.year) then 366 else 365
  {
    hide Number, IsLeap;
    DaysBeforeBounds(d.year, d.month);
    if d.year < -4799 { DaysBeforeBounds(d.year, d.month - 1); }
  }

  /** The date fields and tm_yday are those of the day number n. */
  lemma FieldsOfDay(t: int, n: int)
    requires n == DayAndSecond(t).0 + JULIAN_DAY_OF_1970_01_01
    ensures var utc, d := ToUtc(t, true), GetYearMonthDay(n);
            && (utc.year + 1900, utc.mon + 1, utc.mday) == (d.year, d.month, d.day)
            && utc.yday == n - Number(YearMonthDay(d.year, 1, 1))
    ensures t >= FIRST_SECOND <==> n >= FIRST_DAY_NUMBER
    ensures t >= FIRST_YDAY_SECOND <==> n >= -31738
  {
    hide CDiv, CMod, GetYearMonthDay, GetJulianDayNumber, DayAndSecond, Hms;
    DayAndSecondRange(t);
  }

  /** From 1 March -4800 on tm_yday lies within the year, and it is the zero-based day of the year if
      and only if the time is not before 1 January -4799: in what remains of -4800 it is one short. */
  lemma YdayIsDayOfYearIff(t: int)
    requires t >= FIRST_SECOND
    ensures var utc := ToUtc(t, true);
            var day := DaysBefore(utc.year + 1900, utc.mon + 1) + utc.mday - 1;
            && (utc.yday == day <==> t >= FIRST_YDAY_SECOND)
            && utc.yday == day - (if t >= FIRST_YDAY_SECOND then 0 else 1)
            && 0 <= utc.yday < (if IsLeap(utc.year + 1900) then 366 else 365)
  {
    hide *;
    var n := DayAndSecond(t).0 + JULIAN_DAY_OF_1970_01_01;
    FieldsOfDay(t, n);
    DateThenNumber(n);
    var d := GetYearMonthDay(n);
    FirstYearIff(d);
    YdayOfDate(d);
    YdayInYear(d);
  }

  /** The first day of all: 1 March of the leap year -4800 gets 59 for the 60 days before it. */
  lemma FirstDayIsOneShort()
    ensures var utc := ToUtc(FIRST_SECOND, true);
            && (utc.year + 1900, utc.mon + 1, utc.mday) == (-4800, 3, 1)
            && DaysBefore(-4800, 3) == 60 && utc.yday == 59
  {
    hide CDiv, CMod, GetYearMonthDay, GetJulianDayNumber, DayAndSecond, DaysBefore, DaysInMonth, IsLeap, Hms;
    FirstDateNumber();
    DaysBeforeFirstDate();
    DaySecondUnique(FIRST_DAY_NUMBER - JULIAN_DAY_OF_1970_01_01, 0, FIRST_SECOND);
    YdayIsDayOfYearIff(FIRST_SECOND);
  }

  lemma FirstDateNumber()
    ensures GetYearMonthDay(FIRST_DAY_NUMBER) == FIRST_DATE
  {
    BeforeFirstDateCollides();
    NumberThenDate(FIRST_DATE);
  }

  lemma DaysBeforeFirstDate()
    ensures DaysBefore(-4800, 3) == 60
  {
    assert DaysBefore(-4800, 2) == 31;
  }

  lemma DaysBeforeBounds(year: int, month: nat)
    requires 1 <= month <= 12
    ensures 0 <= DaysBefore(year, month)
    ensures DaysBefore(year, month) + DaysInMonth(year, month) <= if IsLeap(year) then 366 else 365
  {
    var leap := if IsLeap(year) then 1 else 0;
    assert DaysBefore(year, 2) == 31;
    assert DaysBefore(year, 3) == 59 + leap;
    assert DaysBefore(year, 4) == 90 + leap;
    assert DaysBefore(year, 5) == 120 + leap;
    assert DaysBefore(year, 6) == 151 + leap;
    assert DaysBefore(year, 7) == 181 + leap;
    assert DaysBefore(year, 8) == 212 + leap;
    assert DaysBefore(year, 9) == 243 + leap;
    assert DaysBefore(year, 10) == 273 + leap;
    assert DaysBefore(year, 11) == 304 + leap;
    assert DaysBefore(year, 12) == 334 + leap;
  }

  lemma DayIsQuotient(t: int)
    ensures DayAndSecond(t).0 == t / SECONDS_PER_DAY
  {
    DayAndSecondRange(t);
    hide DayAndSecond;
    var (days, seconds) := DayAndSecond(t);
    assert t == days * SECONDS_PER_DAY + seconds;
  }

  lemma SevenShift(days: int)
    ensures (days + JULIAN_DAY_OF_1970_01_01 + 1) % 7 == (days + 4) % 7
  {
    assert days + JULIAN_DAY_OF_1970_01_01 + 1 == (days + 4) + 7 * 348655;
  }

  /** tm_wday counts on from Thursday, day 0: if and only if the day number is at least -1 or the
      weekday is 0 anyway. Before 1970 too, and whether or not tm_yday is asked for. */
  lemma WdayFromEpochIff(t: int, yday: bool)
    ensures ToUtc(t, yday).wday == (t / SECONDS_PER_DAY + 4) % 7 <==>
            t >= (-1 - JULIAN_DAY_OF_1970_01_01) * SECONDS_PER_DAY || (t / SECONDS_PER_DAY + 4) % 7 == 0
  {
    hide CDiv, CMod, GetYearMonthDay, GetJulianDayNumber, DayAndSecond, Hms;
    DayAndSecondRange(t);
    DayIsQuotient(t);
    var days := DayAndSecond(t).0;
    SevenShift(days);
    WeekDayIsModuloIff(days + JULIAN_DAY_OF_1970_01_01);
  }

  /** tm_yday is filled in exactly on demand, and nothing else depends on that. */
  lemma YdayOnDemand(t: int)
    ensures ToUtc(t, false) == ToUtc(t, true).(yday := 0)
  {
    hide CDiv, CMod, GetYearMonthDay, GetJulianDayNumber, DayAndSecond, Hms;
  }

  /** tm_wday is a weekday and moves to the next one exactly one day later, if and only if the time
      is not before day number -1. */
  lemma WdayAdvancesIff(t: int)
    ensures var w, next := ToUtc(t, false).wday, ToUtc(t + SECONDS_PER_DAY, false).wday;
            (0 <= w < 7 && next == if w == 6 then 0 else w + 1) <==>
            t >= (-1 - JULIAN_DAY_OF_1970_01_01) * SECONDS_PER_DAY
  {
    hide CDiv, CMod, GetYearMonthDay, GetJulianDayNumber, DayAndSecond, Hms;
    DayAndSecondRange(t);
    var (days, seconds) := DayAndSecond(t);
    DaySecondUnique(days + 1, seconds, t + SECONDS_PER_DAY);
    WeekDayAdvancesIff(days + JULIAN_DAY_OF_1970_01_01);
  }
}
