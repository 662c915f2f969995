/**
  * Clock and calendar arithmetic shared by the whole model.
  *
  * Timestamps are integer milliseconds since 1970-01-01T00:00Z and calendar
  * days are integer day numbers (day 0 is 1970-01-01). Local time is taken to
  * be UTC, so the calendar day of a timestamp is `t / MsPerDay` and a
  * `YYYY-MM-DD` string is represented by its day number: comparing two such
  * strings is comparing two day numbers.
  *
  * Year/month/day conversions follow the proleptic Gregorian calendar with
  * integer-only arithmetic, as the `Date` constructor and `setMonth`/`setDate`
  * do (an out-of-range day or month rolls over into the next one).
  */
module Calendar {

  const MsPerSecond: int := 1000
  const MsPerMinute: int := 60000
  const MsPerHour: int := 3600000
  const MsPerDay: int := 86400000

  /** The calendar day that holds timestamp `t` (`Date.toISOString().split('T')[0]`). */
  function DayOf(t: int): int
  {
    t / MsPerDay
  }

  /** Milliseconds elapsed since midnight of `DayOf(t)`. */
  function TimeOfDay(t: int): int
  {
    t % MsPerDay
  }

  /** Midnight of `day` (`setHours(0, 0, 0, 0)`). */
  function StartOfDay(day: int): int
  {
    day * MsPerDay
  }

  /** The last millisecond of `day` (`setHours(23, 59, 59, 999)`). */
  function EndOfDay(day: int): int
  {
    day * MsPerDay + MsPerDay - 1
  }

  /** Same year, month and date: the test `canComplete*` and the task filters use. */
  predicate SameLocalDay(a: int, b: int)
  {
    DayOf(a) == DayOf(b)
  }

  /** `t` lies in the window `[StartOfDay(day), EndOfDay(day)]`. */
  predicate InDayWindow(t: int, day: int)
  {
    StartOfDay(day) <= t <= EndOfDay(day)
  }

  lemma DayOfBounds(t: int)
    ensures StartOfDay(DayOf(t)) <= t <= EndOfDay(DayOf(t))
    ensures t == StartOfDay(DayOf(t)) + TimeOfDay(t)
    ensures 0 <= TimeOfDay(t) < MsPerDay
  {
  }

  /** A timestamp lies in a day's window exactly when that day is its calendar day. */
  lemma InDayWindowIff(t: int, day: int)
    ensures InDayWindow(t, day) <==> DayOf(t) == day
  {
    DayOfBounds(t);
  }

  /** `Date.getDay()`: 0 is Sunday, 6 is Saturday; 1970-01-01 was a Thursday. */
  function Weekday(day: int): int
  {
    (day + 4) % 7
  }

  lemma WeekdayRange(day: int)
    ensures 0 <= Weekday(day) <= 6
  {
  }

  /** Moving `n` days forward moves the weekday `n` places round the week. */
  lemma WeekdayShift(day: int, n: int)
    ensures Weekday(day + n) == (Weekday(day) + n) % 7
  {
  }

  /** `setDate(getDate() + n)`: the same time of day, `n` calendar days later. */
  function AddDays(t: int, n: int): int
  {
    t + n * MsPerDay
  }

  lemma AddDaysDay(t: int, n: int)
    ensures DayOf(AddDays(t, n)) == DayOf(t) + n
    ensures TimeOfDay(AddDays(t, n)) == TimeOfDay(t)
  {
    DayOfBounds(t);
    DayOfBounds(AddDays(t, n));
    var d := DayOf(t) + n;
    assert AddDays(t, n) == StartOfDay(d) + TimeOfDay(t);
    InDayWindowIff(AddDays(t, n), d);
  }

  // ---------------------------------------------------------------------
  // Civil (year, month, day) dates
  // ---------------------------------------------------------------------

  /** A civil date; `month` is 1..12 and `day` is 1..31 when produced by `CivilFromDays`. */
  datatype Civil = Civil(year: int, month: int, day: int)

  predicate IsLeapYear(y: int)
  {
    y % 4 == 0 && (y % 100 != 0 || y % 400 == 0)
  }

  function DaysInMonth(year: int, month: int): (n: int)
    requires 1 <= month <= 12
    ensures 28 <= n <= 31
    ensures n == 29 <==> month == 2 && IsLeapYear(year)
  {
    if month == 2 then (if IsLeapYear(year) then 29 else 28)
    else if month == 4 || month == 6 || month == 9 || month == 11 then 30
    else 31
  }

  /**
    * Day number of `year`-`month`-`day`. Months outside 1..12 are first
    * normalised into the year, and the day enters linearly, so a day beyond
    * the month's end rolls into the following month as `new Date(y, m, d)` does.
    */
  function DaysFromCivil(year: int, month: int, day: int): int
  {
    var m0 := month - 1;
    var y := year + m0 / 12;
    var m := m0 % 12 + 1;
    var y1 := if m <= 2 then y - 1 else y;
    var mp := if m > 2 then m - 3 else m + 9;
    YearDays(y1) + MonthOffset(mp) + day - 1 - 719468
  }

  /**
    * Days from 0000-03-01 to the first of March of year `y1`: the calendar
    * year is shifted to start in March so that the leap day comes last.
    */
  function YearDays(y1: int): int
  {
    var era := y1 / 400;
    var yoe := y1 - era * 400;
    era * 146097 + yoe * 365 + yoe / 4 - yoe / 100
  }

  /** Days from the first of March to the first of the `mp`-th month after it. */
  function MonthOffset(mp: int): int
  {
    (153 * mp + 2) / 5
  }

  /** Euclidean division by 4, 100 or 400 is determined by any quotient/remainder pair with the remainder in range. */
  lemma DivUnique(x: int, k: int, q: int, r: int)
    requires k == 4 || k == 100 || k == 400
    requires x == k * q + r && 0 <= r < k
    ensures x / k == q && x % k == r
  {
    if k == 4 {
      assert x == 4 * q + r;
    } else if k == 100 {
      assert x == 100 * q + r;
    } else {
      assert x == 400 * q + r;
    }
  }

  /** A March-based year has 366 days exactly when the February at its end is a leap February. */
  lemma YearDaysStep(y1: int)
    ensures YearDays(y1 + 1) - YearDays(y1) == if IsLeapYear(y1 + 1) then 366 else 365
  {
    var era := y1 / 400;
    var r := y1 % 400;
    DivUnique(y1, 400, era, r);
    if r == 399 {
      EraEndStep(y1, era);
    } else {
      InEraStep(y1, era, r);
    }
  }

  /** The last year of a 400-year era is followed by a leap year divisible by 400. */
  lemma EraEndStep(y1: int, era: int)
    requires y1 == 400 * era + 399
    ensures YearDays(y1 + 1) - YearDays(y1) == 366 && IsLeapYear(y1 + 1)
  {
    DivUnique(y1, 400, era, 399);
    DivUnique(y1 + 1, 400, era + 1, 0);
    DivUnique(y1 + 1, 4, 100 * era + 100, 0);
    assert YearDays(y1) == era * 146097 + 145731;
  }

  lemma InEraStep(y1: int, era: int, r: int)
    requires y1 == 400 * era + r && 0 <= r < 399
    ensures YearDays(y1 + 1) - YearDays(y1) == if IsLeapYear(y1 + 1) then 366 else 365
  {
    DivUnique(y1, 400, era, r);
    DivUnique(y1 + 1, 400, era, r + 1);
    DivUnique(y1 + 1, 4, 100 * era + (r + 1) / 4, (r + 1) % 4);
    DivUnique(y1 + 1, 100, 4 * era + (r + 1) / 100, (r + 1) % 100);
    DivStep(r, 4);
    DivStep(r, 100);
    assert YearDays(y1 + 1) - YearDays(y1) == 365 + ((r + 1) / 4 - r / 4) - ((r + 1) / 100 - r / 100);
  }

  /** Going from `r` to `r + 1` raises the quotient by one exactly at a multiple of `k`. */
  lemma DivStep(r: int, k: int)
    requires k == 4 || k == 100
    ensures (r + 1) / k - r / k == if (r + 1) % k == 0 then 1 else 0
  {
    var q := r / k;
    var m := r % k;
    DivUnique(r, k, q, m);
    if m == k - 1 {
      DivUnique(r + 1, k, q + 1, 0);
    } else {
      DivUnique(r + 1, k, q, m + 1);
    }
  }

  /** The civil date of a day number (the inverse of `DaysFromCivil` on valid dates). */
  function CivilFromDays(z: int): Civil
  {
    var z1 := z + 719468;
    var era := z1 / 146097;
    var doe := z1 - era * 146097;
    var yoe := (doe - doe / 1460 + doe / 36524 - doe / 146096) / 365;
    var y := yoe + era * 400;
    var doy := doe - (365 * yoe + yoe / 4 - yoe / 100);
    var mp := (5 * doy + 2) / 153;
    var d := doy - (153 * mp + 2) / 5 + 1;
    var m := if mp < 10 then mp + 3 else mp - 9;
    Civil(if m <= 2 then y + 1 else y, m, d)
  }

  /** The day number `k` days on from `DaysFromCivil(y, m, d)` is the same date with day `d + k`. */
  lemma DaysFromCivilLinear(year: int, month: int, day: int, k: int)
    ensures DaysFromCivil(year, month, day + k) == DaysFromCivil(year, month, day) + k
  {
  }

  /**
    * `d.setMonth(d.getMonth() + k)`: keep the year-relative date and the time of
    * day, move the month by `k` (normalising into the year), and let a date
    * past the new month's end roll over.
    */
  function AddMonths(t: int, k: int): int
  {
    var c := CivilFromDays(DayOf(t));
    StartOfDay(DaysFromCivil(c.year, c.month + k, c.day)) + TimeOfDay(t)
  }

  /** Moving by whole months keeps the time of day. */
  lemma AddMonthsTimeOfDay(t: int, k: int)
    ensures TimeOfDay(AddMonths(t, k)) == TimeOfDay(t)
  {
    var c := CivilFromDays(DayOf(t));
    DayOfBounds(t);
    StartPlusTime(DaysFromCivil(c.year, c.month + k, c.day), TimeOfDay(t));
  }

  /** A time `ms` after midnight of `day` falls on `day`, `ms` into it. */
  lemma StartPlusTime(day: int, ms: int)
    requires 0 <= ms < MsPerDay
    ensures DayOf(StartOfDay(day) + ms) == day
    ensures TimeOfDay(StartOfDay(day) + ms) == ms
  {
    InDayWindowIff(StartOfDay(day) + ms, day);
  }

  /** `DaysFromCivil` on an in-range month, with the normalisation worked out. */
  lemma DaysFromCivilInRange(year: int, month: int, day: int)
    requires 1 <= month <= 12
    ensures DaysFromCivil(year, month, day) ==
      YearDays(if month <= 2 then year - 1 else year) + MonthOffset(if month > 2 then month - 3 else month + 9) + day - 1 - 719468
  {
    assert (month - 1) / 12 == 0 && (month - 1) % 12 == month - 1;
  }

  /** Day offsets of the first of each month in a March-based year. */
  lemma MonthOffsets()
    ensures MonthOffset(0) == 0 && MonthOffset(1) == 31 && MonthOffset(2) == 61
    ensures MonthOffset(3) == 92 && MonthOffset(4) == 122 && MonthOffset(5) == 153
    ensures MonthOffset(6) == 184 && MonthOffset(7) == 214 && MonthOffset(8) == 245
    ensures MonthOffset(9) == 275 && MonthOffset(10) == 306 && MonthOffset(11) == 337
  {
  }

  /** The first day of `year`-`month` and its month length: `new Date(y, m, 0).getDate()`. */
  lemma MonthLength(year: int, month: int)
    requires 1 <= month <= 12
    ensures DaysFromCivil(year, month + 1, 1) - DaysFromCivil(year, month, 1) == DaysInMonth(year, month)
  {
    if month == 12 {
      DecemberLength(year);
    } else if month == 2 {
      FebruaryLength(year);
    } else if month == 1 {
      MonthOffsets();
      DaysFromCivilInRange(year, 1, 1);
      DaysFromCivilInRange(year, 2, 1);
    } else {
      MarchToNovemberLength(year, month);
    }
  }

  lemma MarchToNovemberLength(year: int, month: int)
    requires 3 <= month <= 11
    ensures DaysFromCivil(year, month + 1, 1) - DaysFromCivil(year, month, 1) == DaysInMonth(year, month)
  {
    DaysFromCivilInRange(year, month, 1);
    DaysFromCivilInRange(year, month + 1, 1);
    assert DaysFromCivil(year, month + 1, 1) - DaysFromCivil(year, month, 1) == MonthOffset(month - 2) - MonthOffset(month - 3);
    MonthOffsets();
  }

  lemma DecemberLength(year: int)
    ensures DaysFromCivil(year, 13, 1) - DaysFromCivil(year, 12, 1) == 31
  {
    MonthOffsets();
    DaysFromCivilInRange(year, 12, 1);
    DaysFromCivilInRange(year + 1, 1, 1);
    assert DaysFromCivil(year, 13, 1) == DaysFromCivil(year + 1, 1, 1);
  }

  lemma FebruaryLength(year: int)
    ensures DaysFromCivil(year, 3, 1) - DaysFromCivil(year, 2, 1) == DaysInMonth(year, 2)
  {
    MonthOffsets();
    DaysFromCivilInRange(year, 2, 1);
    DaysFromCivilInRange(year, 3, 1);
    YearDaysStep(year - 1);
  }
}
