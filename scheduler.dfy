/**
  * Task completion rules of the local store (`LocalStorage` and `TaskUtils`
  * in lib/storage.ts): once-per-day eligibility of spaced-repetition and
  * recurring tasks, the completion update, the calendar rule that advances a
  * recurring task's due date, and the per-task queries built on them.
  */
module Scheduler {

  import opened Options
  import opened Domain
  import opened Calendar
  import opened Seqs

  /** A numeric setting read as `n || 1`: zero falls back to one. */
  function OrOne(n: int): int
  {
    if n == 0 then 1 else n
  }

  // ---------------------------------------------------------------------
  // Once-per-day eligibility
  // ---------------------------------------------------------------------

  /** `canCompleteSpacedRepetitionTask` at time `now`. */
  predicate CanCompleteSpaced(t: Task, now: int)
  {
    !SpacedOn(t) || !IsSet(t.spaced.value.lastReviewed)
    || !SameLocalDay(now, t.spaced.value.lastReviewed.value)
  }

  /** `canCompleteRecurringTask` at time `now`. */
  predicate CanCompleteRecurring(t: Task, now: int)
  {
    !RecurringOn(t) || !IsSet(t.recurring.value.lastCompleted)
    || !SameLocalDay(now, t.recurring.value.lastCompleted.value)
  }

  /**
    * Eligibility stated with today's window: a disabled mode or a task never
    * reviewed is always eligible, otherwise exactly when the last review is
    * outside today's `[00:00:00.000, 23:59:59.999]`.
    */
  lemma CanCompleteSpacedWindow(t: Task, now: int)
    ensures !SpacedOn(t) ==> CanCompleteSpaced(t, now)
    ensures SpacedOn(t) && !IsSet(t.spaced.value.lastReviewed) ==> CanCompleteSpaced(t, now)
    ensures SpacedOn(t) && IsSet(t.spaced.value.lastReviewed) ==>
      (CanCompleteSpaced(t, now) <==> !InDayWindow(t.spaced.value.lastReviewed.value, DayOf(now)))
  {
    if SpacedOn(t) && IsSet(t.spaced.value.lastReviewed) {
      InDayWindowIff(t.spaced.value.lastReviewed.value, DayOf(now));
    }
  }

  /** The same statement for recurring tasks and their last completion. */
  lemma CanCompleteRecurringWindow(t: Task, now: int)
    ensures !RecurringOn(t) ==> CanCompleteRecurring(t, now)
    ensures RecurringOn(t) && !IsSet(t.recurring.value.lastCompleted) ==> CanCompleteRecurring(t, now)
    ensures RecurringOn(t) && IsSet(t.recurring.value.lastCompleted) ==>
      (CanCompleteRecurring(t, now) <==> !InDayWindow(t.recurring.value.lastCompleted.value, DayOf(now)))
  {
    if RecurringOn(t) && IsSet(t.recurring.value.lastCompleted) {
      InDayWindowIff(t.recurring.value.lastCompleted.value, DayOf(now));
    }
  }

  // ---------------------------------------------------------------------
  // Spaced repetition
  // ---------------------------------------------------------------------

  /**
    * `Math.ceil(interval * multiplier)` with the multiplier 2.5 (easy),
    * 1.3 (medium) or 1.0 (hard), in exact integer arithmetic.
    */
  function GrowInterval(d: Difficulty, i: int): (r: int)
    ensures d == Easy ==> 2 * r - 2 < 5 * i <= 2 * r
    ensures d == Moderate ==> 10 * r - 10 < 13 * i <= 10 * r
    ensures d == Hard ==> r == i
  {
    match d
    case Easy => (5 * i + 1) / 2
    case Moderate => (13 * i + 9) / 10
    case Hard => i
  }

  /** The interval never shrinks, and grows strictly for easy and medium tasks. */
  lemma IntervalGrowth(d: Difficulty, i: int)
    requires i >= 0
    ensures GrowInterval(d, i) >= i
    ensures i >= 1 && d != Hard ==> GrowInterval(d, i) > i
  {
  }

  /** A spaced-repetition record after one review at `now`. */
  function Reviewed(sr: SpacedRepetition, now: int): SpacedRepetition
  {
    var i := GrowInterval(sr.difficulty, sr.interval);
    sr.(reviewCount := sr.reviewCount + 1, lastReviewed := Some(now),
        interval := i, nextReviewDate := now + i * MsPerDay)
  }

  // ---------------------------------------------------------------------
  // Next due date of a recurring task (TaskUtils.calculateNextRecurringDate)
  // ---------------------------------------------------------------------

  /** Days from weekday `w` to the next Monday-to-Friday day. */
  function DaysToNextWeekday(w: int): int
  {
    if w == 5 then 3 else if w == 6 then 2 else 1
  }

  /**
    * Days from weekday `cur` to the next listed weekday: the smallest listed
    * day after `cur` in this week, else the smallest listed day next week.
    */
  function SpecificDaysOffset(days: seq<int>, cur: int): int
    requires |days| > 0
  {
    OffsetInSorted(SortAscending(days), cur)
  }

  /** The offset read off the ascending list: `find(day => day > cur)`, else wrap to its first day. */
  function OffsetInSorted(sorted: seq<int>, cur: int): int
    requires |sorted| > 0
  {
    match FirstAbove(sorted, cur)
    case Some(t) => t - cur
    case None => 7 - cur + sorted[0]
  }

  /** `Math.ceil(date / 7)`: the week of the month a day of the month falls in. */
  function WeekOfMonth(dayOfMonth: int): int
  {
    (dayOfMonth + 6) / 7
  }

  /**
    * `d.setDate(n)`: day `n` of the month holding `t` (rolling over past the
    * month's end), at the same time of day.
    */
  function SetDate(t: int, n: int): int
  {
    var c := CivilFromDays(DayOf(t));
    StartOfDay(DaysFromCivil(c.year, c.month, n)) + TimeOfDay(t)
  }

  /**
    * The monthly same-weekday rule: `k` months on, the first day with the
    * weekday of `from`, then as many further weeks as `from` is into its month.
    */
  function SameWeekdayDate(from: int, k: int): int
  {
    var w := Weekday(DayOf(from));
    var week := WeekOfMonth(CivilFromDays(DayOf(from)).day);
    var first := SetDate(AddMonths(from, k), 1);
    AddDays(first, (w - Weekday(DayOf(first))) % 7 + (week - 1) * 7)
  }

  /** The due date that follows `from` under the recurrence `rec`. */
  function NextRecurringDate(from: int, rec: Recurring): int
  {
    match rec.pattern
    case Daily => AddDays(from, OrOne(rec.interval))
    case Custom => AddDays(from, OrOne(rec.interval))
    case Weekdays => AddDays(from, DaysToNextWeekday(Weekday(DayOf(from))))
    case Weekly =>
      if rec.weeklyPattern == Some(EveryOtherWeek) then AddDays(from, 14)
      else AddDays(from, 7 * OrOne(rec.interval))
    case SpecificDays =>
      if rec.daysOfWeek.None? || |rec.daysOfWeek.value| == 0 then from
      else AddDays(from, SpecificDaysOffset(rec.daysOfWeek.value, Weekday(DayOf(from))))
    case Monthly =>
      if rec.monthlyPattern == Some(SameDate) then AddMonths(from, OrOne(rec.interval))
      else if rec.monthlyPattern == Some(SameWeekday) then SameWeekdayDate(from, OrOne(rec.interval))
      else from
  }

  /** `daysOfWeek` once the calculation has sorted it in place. */
  function DaysAfterCalculation(rec: Recurring): Option<seq<int>>
  {
    if rec.pattern == SpecificDays && rec.daysOfWeek.Some? && |rec.daysOfWeek.value| > 0
    then Some(SortAscending(rec.daysOfWeek.value))
    else rec.daysOfWeek
  }

  /** The next date and the sorted days do not depend on when the task was last completed. */
  lemma CalculationIgnoresLastCompleted(from: int, rec: Recurring, last: Option<int>)
    ensures NextRecurringDate(from, rec.(lastCompleted := last)) == NextRecurringDate(from, rec)
    ensures DaysAfterCalculation(rec.(lastCompleted := last)) == DaysAfterCalculation(rec)
  {
  }

  /**
    * `calculateNextRecurringDate`: steps a date forward day by day for the
    * weekday patterns and sorts `daysOfWeek` in place (returned as `days`).
    */
  method CalculateNextRecurringDate(from: int, rec: Recurring) returns (next: int, days: Option<seq<int>>)
    ensures next == NextRecurringDate(from, rec)
    ensures days == DaysAfterCalculation(rec)
  {
    next := from;
    days := rec.daysOfWeek;
    match rec.pattern {
      case Daily =>
        next := AddDays(next, OrOne(rec.interval));
      case Weekdays =>
        next := SkipToWeekday(next);
      case Weekly =>
        if rec.weeklyPattern == Some(EveryOtherWeek) {
          next := AddDays(next, 14);
        } else {
          next := AddDays(next, 7 * OrOne(rec.interval));
        }
      case SpecificDays =>
        if days.Some? && |days.value| > 0 {
          var currentDay := Weekday(DayOf(next));
          var targetDays := SortAscending(days.value);
          days := Some(targetDays);
          var nextTargetDay := FirstAbove(targetDays, currentDay);
          if nextTargetDay.None? {
            next := AddDays(next, 7 - currentDay + targetDays[0]);
          } else {
            next := AddDays(next, nextTargetDay.value - currentDay);
          }
        }
      case Monthly =>
        if rec.monthlyPattern == Some(SameDate) {
          next := AddMonths(next, OrOne(rec.interval));
        } else if rec.monthlyPattern == Some(SameWeekday) {
          next := StepSameWeekday(next, OrOne(rec.interval));
        }
      case Custom =>
        next := AddDays(next, OrOne(rec.interval));
    }
  }

  /**
    * The same-weekday branch: `interval` months on, back to day 1, forward
    * to the original weekday, then the original week of the month.
    */
  method StepSameWeekday(from: int, k: int) returns (next: int)
    ensures next == SameWeekdayDate(from, k)
  {
    var currentWeekday := Weekday(DayOf(from));
    var currentWeekOfMonth := WeekOfMonth(CivilFromDays(DayOf(from)).day);
    next := AddMonths(from, k);
    next := SetDate(next, 1);
    WeekdayRange(DayOf(from));
    next := StepToWeekday(next, currentWeekday);
    next := AddDays(next, (currentWeekOfMonth - 1) * 7);
  }

  /** The `do { +1 day } while (Saturday or Sunday)` loop of the weekdays pattern. */
  method SkipToWeekday(from: int) returns (next: int)
    ensures next == AddDays(from, DaysToNextWeekday(Weekday(DayOf(from))))
  {
    var d0 := DayOf(from);
    var target := DaysToNextWeekday(Weekday(d0));
    next := AddDays(from, 1);
    ghost var n := 1;
    AddDaysDay(from, n);
    while Weekday(DayOf(next)) == 0 || Weekday(DayOf(next)) == 6
      invariant 1 <= n <= target
      invariant next == AddDays(from, n) && DayOf(next) == d0 + n
      invariant Weekday(DayOf(next)) == 0 || Weekday(DayOf(next)) == 6 <==> n < target
      decreases target - n
    {
      next := AddDays(next, 1);
      n := n + 1;
      AddDaysDay(from, n);
    }
  }

  /** The `while (getDay() !== weekday) { +1 day }` loop of the same-weekday pattern. */
  method StepToWeekday(first: int, weekday: int) returns (next: int)
    requires 0 <= weekday <= 6
    ensures next == AddDays(first, (weekday - Weekday(DayOf(first))) % 7)
  {
    var a := Weekday(DayOf(first));
    var gap := (weekday - a) % 7;
    next := first;
    ghost var n := 0;
    AddDaysDay(first, 0);
    while Weekday(DayOf(next)) != weekday
      invariant 0 <= n <= gap
      invariant next == AddDays(first, n) && DayOf(next) == DayOf(first) + n
      invariant Weekday(DayOf(next)) == (a + n) % 7
      decreases gap - n
    {
      WeekdayStepsToTarget(a, weekday, n);
      next := AddDays(next, 1);
      n := n + 1;
      AddDaysDay(first, n);
      WeekdayShift(DayOf(first), n);
    }
    WeekdayStepsToTarget(a, weekday, n);
  }

  /** Stepping one day at a time from weekday `a` reaches weekday `w` after exactly `(w - a) % 7` steps. */
  lemma WeekdayStepsToTarget(a: int, w: int, n: int)
    requires 0 <= a <= 6 && 0 <= w <= 6 && 0 <= n <= (w - a) % 7
    ensures (a + n) % 7 == w <==> n == (w - a) % 7
  {
  }

  // Properties of the next due date.

  /** Every pattern keeps the time of day. */
  lemma NextKeepsTimeOfDay(from: int, rec: Recurring)
    ensures TimeOfDay(NextRecurringDate(from, rec)) == TimeOfDay(from)
  {
    var k := OrOne(rec.interval);
    match rec.pattern
    case Daily => AddDaysDay(from, k);
    case Custom => AddDaysDay(from, k);
    case Weekdays => AddDaysDay(from, DaysToNextWeekday(Weekday(DayOf(from))));
    case Weekly => AddDaysDay(from, 14); AddDaysDay(from, 7 * k);
    case SpecificDays =>
      if rec.daysOfWeek.Some? && |rec.daysOfWeek.value| > 0 {
        AddDaysDay(from, SpecificDaysOffset(rec.daysOfWeek.value, Weekday(DayOf(from))));
      }
    case Monthly =>
      AddMonthsTimeOfDay(from, k);
      SameWeekdayKeepsTime(from, k);
  }

  lemma SameWeekdayKeepsTime(from: int, k: int)
    ensures TimeOfDay(SameWeekdayDate(from, k)) == TimeOfDay(from)
  {
    var first := SetDate(AddMonths(from, k), 1);
    AddMonthsTimeOfDay(from, k);
    SetDateTimeOfDay(AddMonths(from, k), 1);
    var w := Weekday(DayOf(from));
    var week := WeekOfMonth(CivilFromDays(DayOf(from)).day);
    AddDaysDay(first, (w - Weekday(DayOf(first))) % 7 + (week - 1) * 7);
  }

  lemma SetDateTimeOfDay(t: int, n: int)
    ensures TimeOfDay(SetDate(t, n)) == TimeOfDay(t)
  {
    var c := CivilFromDays(DayOf(t));
    DayOfBounds(t);
    StartPlusTime(DaysFromCivil(c.year, c.month, n), TimeOfDay(t));
  }

  /** Daily and custom recurrences move `interval` days on, one day when the interval is 0. */
  lemma NextDailyOrCustom(from: int, rec: Recurring)
    requires rec.pattern == Daily || rec.pattern == Custom
    ensures DayOf(NextRecurringDate(from, rec)) == DayOf(from) + (if rec.interval == 0 then 1 else rec.interval)
  {
    AddDaysDay(from, OrOne(rec.interval));
  }

  /** Weekly recurrences move 14 days on every other week, else 7 × interval days. */
  lemma NextWeekly(from: int, rec: Recurring)
    requires rec.pattern == Weekly
    ensures rec.weeklyPattern == Some(EveryOtherWeek) ==> DayOf(NextRecurringDate(from, rec)) == DayOf(from) + 14
    ensures rec.weeklyPattern != Some(EveryOtherWeek) ==>
      DayOf(NextRecurringDate(from, rec)) == DayOf(from) + 7 * (if rec.interval == 0 then 1 else rec.interval)
  {
    AddDaysDay(from, 14);
    AddDaysDay(from, 7 * OrOne(rec.interval));
  }

  /** Saturday or Sunday. */
  predicate IsWeekend(day: int)
  {
    Weekday(day) == 0 || Weekday(day) == 6
  }

  /**
    * The weekdays recurrence lands 1 to 3 days later on a Monday-to-Friday
    * day, and every day it skips over is a Saturday or a Sunday.
    */
  lemma NextWeekdays(from: int, rec: Recurring)
    requires rec.pattern == Weekdays
    ensures var a := DayOf(from);
      var b := DayOf(NextRecurringDate(from, rec));
      1 <= b - a <= 3 && !IsWeekend(b) && forall d :: a < d < b ==> IsWeekend(d)
  {
    var a := DayOf(from);
    var gap := DaysToNextWeekday(Weekday(a));
    AddDaysDay(from, gap);
    WeekdayShift(a, gap);
    forall d | a < d < a + gap
      ensures IsWeekend(d)
    {
      WeekdayShift(a, d - a);
    }
  }

  /** The weekday `j` days after weekday `cur` is listed in `days`. */
  predicate ListedAfter(days: seq<int>, cur: int, j: int)
  {
    (cur + j) % 7 in days
  }

  /**
    * On weekdays: from weekday `cur`, the offset to the next listed weekday
    * is 1 to 7 days, lands on a listed weekday, and passes over none.
    */
  lemma WeekGap(days: seq<int>, cur: int)
    requires |days| > 0 && 0 <= cur <= 6
    requires forall i :: 0 <= i < |days| ==> 0 <= days[i] <= 6
    ensures var off := SpecificDaysOffset(days, cur);
      1 <= off <= 7 && ListedAfter(days, cur, off)
      && forall j :: 0 < j < off ==> !ListedAfter(days, cur, j)
  {
    SortAscendingMembers(days);
    WeekGapSorted(days, SortAscending(days), cur);
  }

  lemma WeekGapSorted(days: seq<int>, sorted: seq<int>, cur: int)
    requires |sorted| > 0 && Ascending(sorted) && 0 <= cur <= 6
    requires forall x :: x in sorted <==> x in days
    requires forall i :: 0 <= i < |days| ==> 0 <= days[i] <= 6
    ensures var off := OffsetInSorted(sorted, cur);
      1 <= off <= 7 && ListedAfter(days, cur, off)
      && forall j :: 0 < j < off ==> !ListedAfter(days, cur, j)
  {
    match FirstAbove(sorted, cur)
    case Some(t) =>
      GapThisWeek(days, sorted, cur, t);
    case None =>
      GapNextWeek(days, sorted, cur);
  }

  lemma GapThisWeek(days: seq<int>, sorted: seq<int>, cur: int, t: int)
    requires Ascending(sorted) && 0 <= cur <= 6
    requires forall x :: x in sorted <==> x in days
    requires forall i :: 0 <= i < |days| ==> 0 <= days[i] <= 6
    requires FirstAbove(sorted, cur) == Some(t)
    ensures 1 <= t - cur <= 6 && ListedAfter(days, cur, t - cur)
    ensures forall j :: 0 < j < t - cur ==> !ListedAfter(days, cur, j)
  {
    assert t in days;
    forall j | 0 < j < t - cur
      ensures !ListedAfter(days, cur, j)
    {
      assert (cur + j) % 7 == cur + j;
    }
  }

  lemma GapNextWeek(days: seq<int>, sorted: seq<int>, cur: int)
    requires |sorted| > 0 && Ascending(sorted) && 0 <= cur <= 6
    requires forall x :: x in sorted <==> x in days
    requires forall i :: 0 <= i < |days| ==> 0 <= days[i] <= 6
    requires FirstAbove(sorted, cur).None?
    ensures var off := 7 - cur + sorted[0];
      1 <= off <= 7 && ListedAfter(days, cur, off)
      && forall j :: 0 < j < off ==> !ListedAfter(days, cur, j)
  {
    var lo := sorted[0];
    assert lo in days;
    assert (cur + (7 - cur + lo)) % 7 == lo;
    forall j | 0 < j < 7 - cur + lo
      ensures !ListedAfter(days, cur, j)
    {
      if cur + j <= 6 {
        assert (cur + j) % 7 == cur + j;
      } else {
        assert (cur + j) % 7 == cur + j - 7;
      }
    }
  }

  /**
    * On day numbers: from day `a`, the offset to the next listed weekday is
    * 1 to 7 days, lands on a listed weekday, and passes over none.
    */
  lemma SpecificDaysGap(days: seq<int>, a: int)
    requires |days| > 0
    requires forall i :: 0 <= i < |days| ==> 0 <= days[i] <= 6
    ensures var off := SpecificDaysOffset(days, Weekday(a));
      1 <= off <= 7 && Weekday(a + off) in days
      && forall d :: a < d < a + off ==> Weekday(d) !in days
  {
    var cur := Weekday(a);
    WeekGap(days, cur);
    var off := SpecificDaysOffset(days, cur);
    WeekdayShift(a, off);
    forall d | a < d < a + off
      ensures Weekday(d) !in days
    {
      WeekdayShift(a, d - a);
      assert !ListedAfter(days, cur, d - a);
    }
  }

  /**
    * With weekdays listed in 0..6, the specific-days recurrence lands 1 to 7
    * days later on a listed weekday, and no listed weekday falls in between.
    */
  lemma NextSpecificDays(from: int, rec: Recurring)
    requires rec.pattern == SpecificDays
    requires rec.daysOfWeek.Some? && |rec.daysOfWeek.value| > 0
    requires forall i :: 0 <= i < |rec.daysOfWeek.value| ==> 0 <= rec.daysOfWeek.value[i] <= 6
    ensures var a := DayOf(from);
      var b := DayOf(NextRecurringDate(from, rec));
      1 <= b - a <= 7 && Weekday(b) in rec.daysOfWeek.value
      && forall d :: a < d < b ==> Weekday(d) !in rec.daysOfWeek.value
  {
    var a := DayOf(from);
    SpecificDaysGap(rec.daysOfWeek.value, a);
    AddDaysDay(from, SpecificDaysOffset(rec.daysOfWeek.value, Weekday(a)));
  }

  /** A Wednesday with days [1, 3, 5] moves on to the Friday two days later. */
  lemma SpecificDaysExample(from: int)
    requires Weekday(DayOf(from)) == 3
    ensures NextRecurringDate(from, Recurring(true, SpecificDays, 1, Some([1, 3, 5]), None, None, 0, None, None))
      == AddDays(from, 2)
  {
    SortExample();
    assert FirstAbove([1, 3, 5], 3) == Some(5);
    assert SpecificDaysOffset([1, 3, 5], 3) == 2;
  }

  lemma SortExample()
    ensures SortAscending([1, 3, 5]) == [1, 3, 5]
  {
    SortAscendingKeepsAscending([1, 3, 5]);
  }

  /** Moving on to the first `w`-day and then whole weeks lands on a `w`-day. */
  lemma AlignedWeekday(first: int, w: int, weeks: int)
    requires 0 <= w <= 6
    ensures Weekday(DayOf(AddDays(first, (w - Weekday(DayOf(first))) % 7 + weeks * 7))) == w
  {
    var n := (w - Weekday(DayOf(first))) % 7 + weeks * 7;
    AddDaysDay(first, n);
    WeekdayShift(DayOf(first), n);
  }

  /** The monthly same-weekday rule keeps the weekday. */
  lemma NextSameWeekday(from: int, rec: Recurring)
    requires rec.pattern == Monthly && rec.monthlyPattern == Some(SameWeekday)
    ensures Weekday(DayOf(NextRecurringDate(from, rec))) == Weekday(DayOf(from))
  {
    SameWeekdayKeepsWeekday(from, OrOne(rec.interval));
  }

  lemma SameWeekdayKeepsWeekday(from: int, k: int)
    ensures Weekday(DayOf(SameWeekdayDate(from, k))) == Weekday(DayOf(from))
  {
    var week := WeekOfMonth(CivilFromDays(DayOf(from)).day);
    WeekdayRange(DayOf(from));
    AlignedWeekday(SetDate(AddMonths(from, k), 1), Weekday(DayOf(from)), week - 1);
  }

  /** The cases that leave the date where it was. */
  lemma NextUnchanged(from: int, rec: Recurring)
    requires (rec.pattern == SpecificDays && (rec.daysOfWeek.None? || rec.daysOfWeek.value == []))
      || (rec.pattern == Monthly && rec.monthlyPattern != Some(SameDate) && rec.monthlyPattern != Some(SameWeekday))
    ensures NextRecurringDate(from, rec) == from
  {
  }

  // ---------------------------------------------------------------------
  // The completion update (updateTaskAfterCompletion, for one task)
  // ---------------------------------------------------------------------

  /** A recurring record completed at `now`. */
  function Advanced(r: Recurring, now: int): Recurring
  {
    r.(lastCompleted := Some(now), nextDue := NextRecurringDate(now, r), daysOfWeek := DaysAfterCalculation(r))
  }

  /**
    * The task as it is stored after a completion at `now`, or `None` when the
    * update is abandoned because an enabled spaced-repetition or recurring
    * task was already completed today.
    */
  function CompletedTask(t: Task, now: int): Option<Task>
  {
    if SpacedOn(t) && !CanCompleteSpaced(t, now) then None
    else if RecurringOn(t) && !CanCompleteRecurring(t, now) then None
    else
      var counted := t.(sessionsCompleted := t.sessionsCompleted + 1);
      var reviewed := if SpacedOn(t) then counted.(spaced := Some(Reviewed(t.spaced.value, now)), completed := false) else counted;
      if RecurringOn(t) then Some(reviewed.(recurring := Some(Advanced(t.recurring.value, now)), completed := false))
      else if SpacedOn(t) then Some(reviewed)
      else Some(reviewed.(completed := true, completedAt := Some(now)))
  }

  /** The update is abandoned exactly when an enabled mode was already completed today. */
  lemma CompletionRefused(t: Task, now: int)
    ensures CompletedTask(t, now).None? <==>
      (SpacedOn(t) && IsSet(t.spaced.value.lastReviewed) && SameLocalDay(now, t.spaced.value.lastReviewed.value))
      || (RecurringOn(t) && IsSet(t.recurring.value.lastCompleted) && SameLocalDay(now, t.recurring.value.lastCompleted.value))
  {
  }

  /**
    * A spaced-repetition review: one more session and review, last reviewed
    * now, the interval grown by the difficulty multiplier, the next review
    * that many days from now, and the task left incomplete.
    */
  lemma SpacedCompletion(t: Task, now: int)
    requires SpacedOn(t) && CompletedTask(t, now).Some?
    ensures var u := CompletedTask(t, now).value;
      var sr := t.spaced.value;
      u.sessionsCompleted == t.sessionsCompleted + 1
      && !u.completed
      && u.spaced.Some? && u.spaced.value.enabled
      && u.spaced.value.reviewCount == sr.reviewCount + 1
      && u.spaced.value.lastReviewed == Some(now)
      && u.spaced.value.interval == GrowInterval(sr.difficulty, sr.interval)
      && (sr.interval >= 0 ==> u.spaced.value.interval >= sr.interval)
      && (sr.difficulty == Hard ==> u.spaced.value.interval == sr.interval)
      && u.spaced.value.nextReviewDate == now + u.spaced.value.interval * MsPerDay
      && u.spaced.value.difficulty == sr.difficulty
  {
    if t.spaced.value.interval >= 0 {
      IntervalGrowth(t.spaced.value.difficulty, t.spaced.value.interval);
    }
  }

  /**
    * A recurring completion: one more session, last completed now, next due
    * on the next date of its pattern, and the task left incomplete.
    */
  lemma RecurringCompletion(t: Task, now: int)
    requires RecurringOn(t) && CompletedTask(t, now).Some?
    ensures var u := CompletedTask(t, now).value;
      u.sessionsCompleted == t.sessionsCompleted + 1
      && !u.completed
      && u.recurring.Some? && u.recurring.value.enabled
      && u.recurring.value.lastCompleted == Some(now)
      && u.recurring.value.nextDue == NextRecurringDate(now, t.recurring.value)
      && u.recurring.value.pattern == t.recurring.value.pattern
      && u.completedAt == t.completedAt
  {
  }

  /** A plain task is completed for good, stamped with `now`. */
  lemma PlainCompletion(t: Task, now: int)
    requires !SpacedOn(t) && !RecurringOn(t)
    ensures CompletedTask(t, now) == Some(t.(sessionsCompleted := t.sessionsCompleted + 1, completed := true, completedAt := Some(now)))
  {
  }

  /**
    * Once completed, a spaced-repetition or recurring task cannot be
    * completed again the same day (the timestamp 0 reads as "never").
    */
  lemma CompletionOncePerDay(t: Task, now: int, later: int)
    requires SpacedOn(t) || RecurringOn(t)
    requires CompletedTask(t, now).Some?
    requires now != 0 && SameLocalDay(now, later)
    ensures CompletedTask(CompletedTask(t, now).value, later).None?
  {
  }

  // ---------------------------------------------------------------------
  // Task list queries
  // ---------------------------------------------------------------------

  /** `tasks.findIndex(t => t.id === id)`. */
  function IndexOf(tasks: seq<Task>, id: string): (r: Option<nat>)
    ensures r.None? <==> forall i :: 0 <= i < |tasks| ==> tasks[i].id != id
    ensures r.Some? ==> (r.value < |tasks| && tasks[r.value].id == id
      && forall i :: 0 <= i < r.value ==> tasks[i].id != id)
  {
    if tasks == [] then None
    else if tasks[0].id == id then Some(0)
    else match IndexOf(tasks[1..], id)
      case None => None
      case Some(i) => Some(i + 1)
  }

  /** The stored list after `updateTaskAfterCompletion(id)` at `now`. */
  function AfterCompletion(tasks: seq<Task>, id: string, now: int): seq<Task>
  {
    match IndexOf(tasks, id)
    case None => tasks
    case Some(i) =>
      match CompletedTask(tasks[i], now)
      case None => tasks
      case Some(u) => tasks[i := u]
  }

  /**
    * Only the first task with the id changes; an unknown id or a refused
    * completion leaves the list as it was (the session count included).
    */
  lemma AfterCompletionFrame(tasks: seq<Task>, id: string, now: int)
    ensures |AfterCompletion(tasks, id, now)| == |tasks|
    ensures (forall i :: 0 <= i < |tasks| ==> tasks[i].id != id) ==> AfterCompletion(tasks, id, now) == tasks
    ensures forall i :: 0 <= i < |tasks| && IndexOf(tasks, id) != Some(i) ==> AfterCompletion(tasks, id, now)[i] == tasks[i]
    ensures forall i :: 0 <= i < |tasks| ==> AfterCompletion(tasks, id, now)[i].id == tasks[i].id
    ensures IndexOf(tasks, id).Some? && CompletedTask(tasks[IndexOf(tasks, id).value], now).None?
      ==> AfterCompletion(tasks, id, now) == tasks
  {
  }

  /** A completion leaves the per-day session counter alone. */
  lemma CompletionKeepsDailyCount(t: Task, now: int)
    ensures CompletedTask(t, now).Some? ==> CompletedTask(t, now).value.dailySessions == t.dailySessions
  {
  }

  /** The task at the first index of the id after the update: completed, or as it was when refused. */
  lemma AfterCompletionAt(tasks: seq<Task>, id: string, now: int, i: nat)
    requires IndexOf(tasks, id) == Some(i)
    ensures AfterCompletion(tasks, id, now)[i]
      == if CompletedTask(tasks[i], now).Some? then CompletedTask(tasks[i], now).value else tasks[i]
  {
  }

  /** `getActiveTasks`: neither completed nor archived. */
  function ActiveTasks(tasks: seq<Task>): seq<Task>
  {
    Filter(tasks, IsActive)
  }

  predicate IsActive(t: Task)
  {
    !t.completed && !IsSet(t.archivedAt)
  }

  /** The due-today test of `getTasksDueToday` for an active task. */
  predicate DueByEndOfToday(t: Task, today: int)
  {
    (t.recurring.None? && t.spaced.None?)
    || (RecurringOn(t) && t.recurring.value.nextDue <= EndOfDay(today))
    || (SpacedOn(t) && t.spaced.value.nextReviewDate <= EndOfDay(today))
  }

  /** `getTasksDueToday`: active tasks that are plain, or whose next date is no later than today. */
  function TasksDueToday(tasks: seq<Task>, today: int): (r: seq<Task>)
    ensures forall i :: 0 <= i < |r| ==>
              r[i] in tasks && !r[i].completed && !IsSet(r[i].archivedAt) && DueByEndOfToday(r[i], today)
    ensures forall i :: (0 <= i < |tasks| && !tasks[i].completed && !IsSet(tasks[i].archivedAt)
      && DueByEndOfToday(tasks[i], today)) ==> tasks[i] in r
  {
    var due := (t: Task) => DueByEndOfToday(t, today);
    FilterMembers(tasks, IsActive);
    FilterMembers(ActiveTasks(tasks), due);
    Filter(ActiveTasks(tasks), due)
  }

  /** `isTaskDueToday`. */
  predicate IsTaskDueToday(t: Task, today: int)
  {
    if t.recurring.None? && t.spaced.None? then !t.completed
    else if RecurringOn(t) then InDayWindow(t.recurring.value.nextDue, today)
    else if SpacedOn(t) then InDayWindow(t.spaced.value.nextReviewDate, today)
    else false
  }

  /** A task with either mode enabled is due today exactly when its next date falls on today. */
  lemma DueTodayByDay(t: Task, today: int)
    ensures RecurringOn(t) ==> (IsTaskDueToday(t, today) <==> DayOf(t.recurring.value.nextDue) == today)
    ensures !RecurringOn(t) && SpacedOn(t) ==> (IsTaskDueToday(t, today) <==> DayOf(t.spaced.value.nextReviewDate) == today)
    ensures t.recurring.Some? && !RecurringOn(t) && !SpacedOn(t) ==> !IsTaskDueToday(t, today)
  {
    if RecurringOn(t) {
      InDayWindowIff(t.recurring.value.nextDue, today);
    } else if SpacedOn(t) {
      InDayWindowIff(t.spaced.value.nextReviewDate, today);
    }
  }

  /** `getTaskProgress` as a percentage. */
  function TaskProgress(t: Task): (p: real)
    ensures t.estimatedSessions == 0 ==> (p == 100.0 <==> t.completed) && (p == 0.0 <==> !t.completed)
    ensures p <= 100.0
    ensures t.estimatedSessions > 0 && t.sessionsCompleted >= 0 ==> 0.0 <= p
    ensures t.estimatedSessions > 0 && t.sessionsCompleted >= t.estimatedSessions ==> p == 100.0
  {
    if t.estimatedSessions == 0 then (if t.completed then 100.0 else 0.0)
    else
      var ratio := t.sessionsCompleted as real / t.estimatedSessions as real * 100.0;
      if ratio < 100.0 then ratio else 100.0
  }

  // ---------------------------------------------------------------------
  // Per-day session counters
  // ---------------------------------------------------------------------

  /** `getTodaysDailySessions`: the stored count when it is dated today, else 0. */
  function TodaysDailySessions(t: Task, today: int): int
  {
    if t.dailySessions.Some? && t.dailySessions.value.date == today then t.dailySessions.value.count else 0
  }

  /** `incrementDailySession(id)` applied to the list. */
  function IncrementDaily(tasks: seq<Task>, id: string, today: int): (r: seq<Task>)
    ensures |r| == |tasks|
    ensures forall i :: 0 <= i < |tasks| && tasks[i].id != id ==> r[i] == tasks[i]
    ensures forall i :: 0 <= i < |tasks| && tasks[i].id == id ==>
      r[i] == tasks[i].(dailySessions := Some(DailyCount(today, TodaysDailySessions(tasks[i], today) + 1)))
  {
    seq(|tasks|, i requires 0 <= i < |tasks| =>
      if tasks[i].id == id
      then tasks[i].(dailySessions := Some(DailyCount(today, TodaysDailySessions(tasks[i], today) + 1)))
      else tasks[i])
  }

  /** Counting a session: today's count goes up by one, a stale or missing count restarts at 1. */
  lemma IncrementDailyCount(tasks: seq<Task>, id: string, today: int, i: int)
    requires 0 <= i < |tasks| && tasks[i].id == id
    ensures TodaysDailySessions(IncrementDaily(tasks, id, today)[i], today) == TodaysDailySessions(tasks[i], today) + 1
    ensures tasks[i].dailySessions.None? || tasks[i].dailySessions.value.date != today
      ==> TodaysDailySessions(IncrementDaily(tasks, id, today)[i], today) == 1
  {
  }

  /** `resetAllDailySessions`: every count not dated today becomes a zero count for today. */
  function ResetDaily(tasks: seq<Task>, today: int): (r: seq<Task>)
    ensures |r| == |tasks|
    ensures forall i :: 0 <= i < |tasks| ==> r[i].dailySessions.Some? && r[i].dailySessions.value.date == today
    ensures forall i :: 0 <= i < |tasks| ==> TodaysDailySessions(r[i], today) == TodaysDailySessions(tasks[i], today)
    ensures forall i :: 0 <= i < |tasks| ==> r[i].(dailySessions := tasks[i].dailySessions) == tasks[i]
  {
    seq(|tasks|, i requires 0 <= i < |tasks| =>
      if tasks[i].dailySessions.Some? && tasks[i].dailySessions.value.date == today then tasks[i]
      else tasks[i].(dailySessions := Some(DailyCount(today, 0))))
  }
}
