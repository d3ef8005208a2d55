/**
 Civil-date arithmetic: days since 1970-01-01 from a Gregorian date and back, against
 counting the days one by one.
 */
module CivilDate {
  import opened Outcomes

  datatype Date = Date(year: int, month: int, day: int)

  const EPOCH := Date(1970, 1, 1)

  // ---- the calendar ----

  predicate IsLeap(year: int) {
    year % 4 == 0 && (year % 100 != 0 || year % 400 == 0)
  }

  function MonthLength(year: int, month: int): int {
    if month == 2 then (if IsLeap(year) then 29 else 28)
    else if month == 4 || month == 6 || month == 9 || month == 11 then 30
    else 31
  }

  /** A date of the Gregorian calendar, not before the epoch. */
  predicate IsDate(date: Date) {
    date.year >= 1970 && 1 <= date.month <= 12 && 1 <= date.day <= MonthLength(date.year, date.month)
  }

  function NextDay(date: Date): Date {
    if date.day < MonthLength(date.year, date.month) then date.(day := date.day + 1)
    else if date.month < 12 then Date(date.year, date.month + 1, 1)
    else Date(date.year + 1, 1, 1)
  }

  /** The date reached by turning the calendar page `n` times. */
  function NthDay(n: nat): (date: Date)
    ensures IsDate(date)
  {
    if n == 0 then EPOCH else NextDay(NthDay(n - 1))
  }

  predicate Before(a: Date, b: Date) {
    || a.year < b.year
    || (a.year == b.year && a.month < b.month)
    || (a.year == b.year && a.month == b.month && a.day < b.day)
  }

  // ---- the algorithms ----

  /** Day of a year that begins in March, counted from zero. */
  function DayOfYear(m: int, d: int): int {
    (153 * (if m > 2 then m - 3 else m + 9) + 2) / 5 + d - 1
  }

  /** The arithmetic of `days_from_civil`, without its range check. */
  function CountDays(date: Date): int {
    var y := if date.month <= 2 then date.year - 1 else date.year;
    var era := y / 400;
    var yoe := y - era * 400;
    var doe := yoe * 365 + yoe / 4 - yoe / 100 + DayOfYear(date.month, date.day);
    era * 146_097 + doe - 719_468
  }

  function DaysFromCivil(y: int, m: int, d: int): Option<int> {
    if !(1 <= m <= 12) || d <= 0 || d > 31 || y < 1970 || y > 9999 then None
    else Some(CountDays(Date(y, m, d)))
  }

  /** The date `doy` days into the year that begins in March of `y`. */
  function FromMarch(y: int, doy: int): Date {
    var mp := (5 * doy + 2) / 153;
    var m := if mp < 10 then mp + 3 else mp - 9;
    Date(if m <= 2 then y + 1 else y, m, doy - (153 * mp + 2) / 5 + 1)
  }

  function CivilFromDays(days: nat): Date {
    var z := days + 719_468;
    var era := z / 146_097;
    var doe := z - era * 146_097;
    var yoe := (doe - doe / 1460 + doe / 36524 - doe / 146096) / 365;
    FromMarch(yoe + era * 400, doe - (365 * yoe + yoe / 4 - yoe / 100))
  }

  // ---- one day at a time ----

  /** Days before year `yoe` of a 400-year era that begins in March. */
  function BeforeYearOfEra(yoe: int): int { yoe * 365 + yoe / 4 - yoe / 100 }

  /** Days before the March of a year, counted as the algorithms count. */
  ghost function BeforeMarch(y: int): int { (y / 400) * 146_097 + BeforeYearOfEra(y - y / 400 * 400) }

  ghost function MarchYear(date: Date): int { if date.month <= 2 then date.year - 1 else date.year }

  lemma {:induction false} CountByParts(date: Date)
    ensures CountDays(date) == BeforeMarch(MarchYear(date)) + DayOfYear(date.month, date.day) - 719_468
  {
  }

  /** Length of the March year: it ends with the February of the next calendar year. */
  lemma {:induction false} MarchYearLength(y: int)
    requires y >= 0
    ensures BeforeMarch(y + 1) == BeforeMarch(y) + (if IsLeap(y + 1) then 366 else 365)
  {
    var yoe := y % 400;
    EraOfNext(y);
    LeapOfEra(y + 1);
    hide IsLeap, BeforeYearOfEra;
    if yoe == 399 {
      EraLength();
    } else {
      YearOfEraStep(yoe);
    }
  }

  lemma {:induction false} EraOfNext(y: int)
    requires y >= 0
    ensures y - y / 400 * 400 == y % 400 < 400
    ensures (y + 1) / 400 == y / 400 + (if y % 400 == 399 then 1 else 0)
    ensures (y + 1) % 400 == if y % 400 == 399 then 0 else y % 400 + 1
    ensures y + 1 - (y + 1) / 400 * 400 == (y + 1) % 400
  {
  }

  lemma {:induction false} LeapOfEra(y: int)
    requires y >= 0
    ensures var k := y % 400; IsLeap(y) <==> k == 0 || (k % 4 == 0 && k % 100 != 0)
  {
    var q := y / 400;
    assert y % 4 == y % 400 % 4 && y % 100 == y % 400 % 100;
  }

  lemma {:induction false} EraLength()
    ensures BeforeYearOfEra(399) + 366 == 146_097 && BeforeYearOfEra(0) == 0
  {
  }

  lemma {:induction false} YearOfEraStep(yoe: int)
    requires 0 <= yoe < 399
    ensures BeforeYearOfEra(yoe + 1) == BeforeYearOfEra(yoe)
      + (if (yoe + 1) % 4 == 0 && (yoe + 1) % 100 != 0 then 366 else 365)
  {
    assert (yoe + 1) / 4 == yoe / 4 + (if (yoe + 1) % 4 == 0 then 1 else 0);
    assert (yoe + 1) / 100 == yoe / 100 + (if (yoe + 1) % 100 == 0 then 1 else 0);
    assert (yoe + 1) % 100 == 0 ==> (yoe + 1) % 4 == 0;
  }

  /** Turning one calendar page adds exactly one day. */
  lemma {:induction false} NextDayCountsOne(date: Date)
    requires IsDate(date)
    ensures IsDate(NextDay(date)) && CountDays(NextDay(date)) == CountDays(date) + 1
  {
    CountByParts(date);
    CountByParts(NextDay(date));
    NextDayInMarchYear(date);
    if date.month == 2 { MarchYearLength(date.year - 1); }
    hide CountDays, BeforeMarch, DayOfYear, IsLeap;
  }

  lemma {:induction false} NextDayInMarchYear(date: Date)
    requires IsDate(date)
    ensures var next := NextDay(date);
      if date.month == 2 && next.month == 3
      then DayOfYear(2, date.day) == (if IsLeap(date.year) then 365 else 364) && DayOfYear(3, next.day) == 0
           && MarchYear(next) == MarchYear(date) + 1 == date.year
      else DayOfYear(next.month, next.day) == DayOfYear(date.month, date.day) + 1 && MarchYear(next) == MarchYear(date)
  {
    hide IsLeap;
  }

  lemma {:induction false} CountingReachesEveryDay(n: nat)
    ensures CountDays(NthDay(n)) == n
  {
    if n == 0 {
      assert CountDays(EPOCH) == 0;
    }
    hide CountDays, NextDay, IsDate;
    if n > 0 {
      CountingReachesEveryDay(n - 1);
      NextDayCountsOne(NthDay(n - 1));
    }
  }

  // ---- the inverse ----

  /** A year of an era as centuries, leap cycles and years. */
  lemma {:induction false} YearOfEraParts(yoe: int, c: int, q: int, r: int)
    requires yoe == 100 * c + 4 * q + r && 0 <= c <= 3 && 0 <= q <= 24 && 0 <= r <= 3
    ensures BeforeYearOfEra(yoe) == 36524 * c + 1461 * q + 365 * r
  {
    assert yoe / 4 == 25 * c + q;
    assert yoe / 100 == c;
  }

  lemma {:induction false} CenturyRecovered(doe: int, c: int, rem: int)
    requires doe == 36524 * c + rem && 0 <= c <= 3
    requires 0 <= rem <= 36523 || (c == 3 && rem == 36524)
    ensures doe / 36524 - doe / 146096 == c
  {
    if c == 3 && rem == 36524 {
      assert doe == 146096;
    } else {
      assert doe / 36524 == c;
      assert doe / 146096 == 0;
    }
  }

  /** Within an era, `s` days after `cycles` full leap cycles: at most the last day counts as late. */
  lemma {:induction false} CycleRecovered(c: int, cycles: int, r: int, doy: int)
    requires 0 <= c <= 3 && 25 * c <= cycles <= 25 * c + 24 && 0 <= r <= 3
    requires 0 <= doy <= 365 && (doy == 365 ==> r == 3)
    ensures var doe := 1461 * cycles + 365 * r + doy - c; (doe - doe / 1460 + c) / 365 == 4 * cycles + r
  {
    var doe := 1461 * cycles + 365 * r + doy - c;
    var over := cycles - c + 365 * r + doy;
    assert doe == 1460 * cycles + over;
    assert 0 <= over < 2920;
    if over >= 1460 {
      assert doe / 1460 == cycles + 1;
      assert doe - doe / 1460 + c == 365 * (4 * cycles + r) + (doy - 1);
    } else {
      assert doe / 1460 == cycles;
      assert doe - doe / 1460 + c == 365 * (4 * cycles + r) + doy;
    }
  }

  /** The year-of-era formula recovers the year, including the long last day of an era. */
  lemma {:induction false} YearOfEraRecovered(yoe: int, doy: int)
    requires 0 <= yoe < 400 && 0 <= doy <= 365
    requires doy == 365 ==> (yoe + 1) % 4 == 0 && ((yoe + 1) % 100 != 0 || yoe == 399)
    ensures var doe := BeforeYearOfEra(yoe) + doy;
      0 <= doe < 146_097 && (doe - doe / 1460 + doe / 36524 - doe / 146096) / 365 == yoe
  {
    var c, q, r := yoe / 100, yoe % 100 / 4, yoe % 4;
    assert yoe == 100 * c + 4 * q + r;
    hide BeforeYearOfEra;
    YearFromParts(yoe, c, q, r, doy);
  }

  lemma {:induction false} YearFromParts(yoe: int, c: int, q: int, r: int, doy: int)
    requires yoe == 100 * c + 4 * q + r && 0 <= c <= 3 && 0 <= q <= 24 && 0 <= r <= 3 && 0 <= doy <= 365
    requires doy == 365 ==> (yoe + 1) % 4 == 0 && ((yoe + 1) % 100 != 0 || yoe == 399)
    ensures var doe := BeforeYearOfEra(yoe) + doy;
      0 <= doe < 146_097 && (doe - doe / 1460 + doe / 36524 - doe / 146096) / 365 == yoe
  {
    YearOfEraParts(yoe, c, q, r);
    LastDayOfEraYear(yoe, c, q, r, doy);
    hide BeforeYearOfEra;
    CenturyRecovered(BeforeYearOfEra(yoe) + doy, c, 1461 * q + 365 * r + doy);
    CycleRecovered(c, 25 * c + q, r, doy);
  }

  lemma {:induction false} LastDayOfEraYear(yoe: int, c: int, q: int, r: int, doy: int)
    requires yoe == 100 * c + 4 * q + r && 0 <= c <= 3 && 0 <= q <= 24 && 0 <= r <= 3
    requires 0 <= doy <= 365
    requires doy == 365 ==> (yoe + 1) % 4 == 0 && ((yoe + 1) % 100 != 0 || yoe == 399)
    ensures doy == 365 ==> r == 3
    ensures 1461 * q + 365 * r + doy <= 36523 || (c == 3 && 1461 * q + 365 * r + doy == 36524)
  {
    if doy == 365 && q == 24 {
      assert yoe + 1 == 100 * (c + 1);
    }
  }

  lemma {:induction false} MonthRecovered(m: int, d: int)
    requires 1 <= m <= 12 && 1 <= d <= MonthLength(2000, m)
    ensures var doy := DayOfYear(m, d); var mp := (5 * doy + 2) / 153;
      && mp == (if m > 2 then m - 3 else m + 9)
      && d == doy - (153 * mp + 2) / 5 + 1
      && 0 <= doy <= 365
      && (doy == 365 ==> m == 2 && d == 29)
  {
    if m == 1 {} else if m == 2 {} else if m == 3 {} else if m == 4 {} else if m == 5 {} else if m == 6 {}
    else if m == 7 {} else if m == 8 {} else if m == 9 {} else if m == 10 {} else if m == 11 {} else {}
  }

  /** `civil_from_days` undoes the count on every Gregorian date since 1970. */
  lemma {:induction false} CivilUndoesCount(date: Date)
    requires IsDate(date) && CountDays(date) >= 0
    ensures CivilFromDays(CountDays(date)) == date
  {
    var y := if date.month <= 2 then date.year - 1 else date.year;
    CountByParts(date);
    hide CountDays, CivilFromDays, DayOfYear, BeforeYearOfEra;
    EraParts(y);
    assert date.month == 2 && date.day == 29 ==> IsLeap(date.year);
    hide IsLeap, IsDate;
    CivilOfParts(y / 400, y % 400, date.month, date.day);
  }

  lemma {:induction false} EraParts(y: int)
    requires y >= 0
    ensures y == y / 400 * 400 + y % 400 && 0 <= y % 400 < 400 && y / 400 >= 0
    ensures BeforeMarch(y) == (y / 400) * 146_097 + BeforeYearOfEra(y % 400)
  {
    hide BeforeYearOfEra;
  }

  lemma {:induction false} CivilOfParts(era: int, yoe: int, m: int, d: int)
    requires era >= 0 && 0 <= yoe < 400 && 1 <= m <= 12 && 1 <= d <= MonthLength(2000, m)
    requires m == 2 && d == 29 ==> IsLeap(era * 400 + yoe + 1)
    requires era * 146_097 + BeforeYearOfEra(yoe) + DayOfYear(m, d) >= 719_468
    ensures CivilFromDays(era * 146_097 + BeforeYearOfEra(yoe) + DayOfYear(m, d) - 719_468)
         == Date(if m <= 2 then era * 400 + yoe + 1 else era * 400 + yoe, m, d)
  {
    MonthRecovered(m, d);
    hide MonthLength;
    var doy := DayOfYear(m, d);
    if doy == 365 {
      LeapInEra(era, yoe);
    }
    hide IsLeap, DayOfYear;
    YearOfEraRecovered(yoe, doy);
    EraRecovered(era, yoe, doy);
    CivilFromEra(era * 146_097 + BeforeYearOfEra(yoe) + doy - 719_468, era, yoe, doy);
    hide CivilFromDays, BeforeYearOfEra;
  }

  lemma {:induction false} CivilFromEra(days: nat, era: int, yoe: int, doy: int)
    requires days + 719_468 == era * 146_097 + BeforeYearOfEra(yoe) + doy && (days + 719_468) / 146_097 == era
    requires var doe := BeforeYearOfEra(yoe) + doy; (doe - doe / 1460 + doe / 36524 - doe / 146096) / 365 == yoe
    ensures CivilFromDays(days) == FromMarch(yoe + era * 400, doy)
  {
    var b := BeforeYearOfEra(yoe);
    assert b == 365 * yoe + yoe / 4 - yoe / 100;
    hide BeforeYearOfEra;
  }

  /** Splitting a day number into its era, year of era and day of year finds them again. */
  lemma {:induction false} EraRecovered(era: int, yoe: int, doy: int)
    requires era >= 0 && 0 <= yoe < 400 && 0 <= doy <= 365
    requires 0 <= BeforeYearOfEra(yoe) + doy < 146_097
    requires era * 146_097 + BeforeYearOfEra(yoe) + doy >= 719_468
    ensures var z := era * 146_097 + BeforeYearOfEra(yoe) + doy;
      z / 146_097 == era && z - era * 146_097 == BeforeYearOfEra(yoe) + doy
  {
  }

  lemma {:induction false} LeapInEra(era: int, yoe: int)
    requires era >= 0 && 0 <= yoe < 400 && IsLeap(era * 400 + yoe + 1)
    ensures (yoe + 1) % 4 == 0 && ((yoe + 1) % 100 != 0 || yoe == 399)
  {
    var n := era * 400 + yoe + 1;
    assert yoe + 1 == 4 * (n / 4 - 100 * era);
    if (yoe + 1) % 100 == 0 {
      assert n == 100 * ((yoe + 1) / 100 + 4 * era);
      assert yoe + 1 == 400 * (n / 400 - era);
    }
  }

  lemma {:induction false} CountNonNegative(date: Date)
    requires IsDate(date)
    ensures CountDays(date) >= 0
  {
    var y := if date.month <= 2 then date.year - 1 else date.year;
    var era, yoe := y / 400, y % 400;
    assert y == era * 400 + yoe;
    if era == 4 {
      assert yoe >= 369;
    } else {
      assert era >= 5;
    }
  }

  /** Both algorithms are exactly day-by-day counting from the epoch. */
  lemma {:induction false} AlgorithmsCountDays(n: nat, date: Date)
    requires IsDate(date)
    ensures CivilFromDays(n) == NthDay(n)
    ensures CountDays(date) == n <==> NthDay(n) == date
  {
    CountingReachesEveryDay(n);
    CivilUndoesCount(NthDay(n));
    CountNonNegative(date);
    CivilUndoesCount(date);
  }

  lemma {:induction false} LaterPageLaterDate(a: nat, b: nat)
    requires a < b
    ensures Before(NthDay(a), NthDay(b))
    decreases b
  {
    if a + 1 < b {
      LaterPageLaterDate(a, b - 1);
    }
  }

  lemma {:induction false} BeforeIsStrict(a: Date, b: Date)
    ensures !(Before(a, b) && Before(b, a)) && !Before(a, a)
  {
  }

  /** Later dates have larger day numbers, and only they do. */
  lemma {:induction false} CountStrictlyIncreasing(a: Date, b: Date)
    requires IsDate(a) && IsDate(b)
    ensures Before(a, b) <==> CountDays(a) < CountDays(b)
  {
    CountNonNegative(a);
    CountNonNegative(b);
    var i, j := CountDays(a), CountDays(b);
    hide CountDays, CivilFromDays, NthDay, IsDate, Before;
    BeforeIsStrict(a, b);
    AlgorithmsCountDays(i, a);
    AlgorithmsCountDays(j, b);
    if i < j {
      LaterPageLaterDate(i, j);
    } else if j < i {
      LaterPageLaterDate(j, i);
    }
  }

  /** The range check lets a day past the end of its month through; it counts into the next month. */
  lemma {:induction false} DaysBeyondMonthRollOver(y: int, m: int, d: int)
    requires 1970 <= y <= 9999 && 1 <= m < 12 && MonthLength(y, m) < d <= 31
    ensures DaysFromCivil(y, m, d) == DaysFromCivil(y, m + 1, d - MonthLength(y, m))
  {
    var len := MonthLength(y, m);
    var last := Date(y, m, len);
    assert 28 <= len && IsDate(last) && NextDay(last) == Date(y, m + 1, 1);
    hide CountDays, NextDay, MonthLength, IsDate;
    NextDayCountsOne(last);
    DaysCountSingly(y, m, len, d);
    DaysCountSingly(y, m + 1, 1, d - len);
  }

  lemma {:induction false} DaysCountSingly(y: int, m: int, d: int, e: int)
    ensures CountDays(Date(y, m, e)) == CountDays(Date(y, m, d)) + (e - d)
  {
    CountByParts(Date(y, m, d));
    CountByParts(Date(y, m, e));
    hide CountDays, BeforeMarch;
  }
}
