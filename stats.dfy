/**
  * Statistics of the local store (lib/storage.ts): the per-day record
  * recomputed from the session, task and completion logs, the weekly and
  * monthly folds over it, and the run of consecutive active days.
  */
module Stats {

  import opened Options
  import opened Domain
  import opened Calendar
  import opened Seqs

  /** The logs `getDailyStats` reads from the store. */
  datatype Logs = Logs(sessions: seq<Session>, tasks: seq<Task>, completions: seq<Completion>)

  /** `session.breakRemindersShown?.length || 0`. */
  function ShownCount(s: Session): int
  {
    if s.remindersShown.Some? then |s.remindersShown.value| else 0
  }

  function Duration(s: Session): int
  {
    s.duration
  }

  /** Sessions whose timestamp lies in the window of `day`. */
  function SessionsOn(sessions: seq<Session>, day: int): seq<Session>
  {
    Filter(sessions, OnDay(day))
  }

  function OnDay(day: int): Session -> bool
  {
    (s: Session) => InDayWindow(s.timestamp, day)
  }

  predicate IsWork(s: Session) { s.kind == Work }
  predicate IsShortBreak(s: Session) { s.kind == ShortBreak }
  predicate IsLongBreak(s: Session) { s.kind == LongBreak }
  predicate IsCompletedWork(s: Session) { s.kind == Work && s.completed }

  /** Minutes of work among `sessions`. */
  function FocusTime(sessions: seq<Session>): int
  {
    Sum(Filter(sessions, IsWork), Duration)
  }

  /** Whether a task counts as completed on `day`: a completion, a recurrence or a review that day. */
  predicate CompletedOn(t: Task, day: int)
  {
    (IsSet(t.completedAt) && InDayWindow(t.completedAt.value, day))
    || (RecurringOn(t) && IsSet(t.recurring.value.lastCompleted) && InDayWindow(t.recurring.value.lastCompleted.value, day))
    || (SpacedOn(t) && IsSet(t.spaced.value.lastReviewed) && InDayWindow(t.spaced.value.lastReviewed.value, day))
  }

  function TasksCompletedOn(tasks: seq<Task>, day: int): nat
  {
    Count(tasks, (t: Task) => CompletedOn(t, day))
  }

  function CompletionsOn(completions: seq<Completion>, day: int): nat
  {
    Count(completions, (c: Completion) => InDayWindow(c.completedAt, day))
  }

  /** The statistics of one day, recomputed from the logs (`getDailyStats`). */
  function DayStats(logs: Logs, day: int): DailyStats
  {
    var ds := SessionsOn(logs.sessions, day);
    DailyStats(
      sessions := |ds|,
      focusTime := FocusTime(ds),
      tasksCompleted := TasksCompletedOn(logs.tasks, day),
      streak := Count(ds, IsCompletedWork),
      date := day,
      workSessions := Count(ds, IsWork),
      shortBreakSessions := Count(ds, IsShortBreak),
      longBreakSessions := Count(ds, IsLongBreak),
      remindersShown := Sum(ds, ShownCount),
      remindersCompleted := CompletionsOn(logs.completions, day))
  }

  function Timestamp(s: Session): int
  {
    s.timestamp
  }

  function Zero<T>(x: T): int
  {
    0
  }

  /**
    * `getDailyStats(date)`. The streak loop walks the day's completed work
    * sessions, newest first, and stops at the first one not completed; since
    * every one of them is completed, it counts them all.
    */
  method GetDailyStats(logs: Logs, day: int) returns (r: DailyStats)
    ensures r == DayStats(logs, day)
  {
    var daySessions := SessionsOn(logs.sessions, day);
    var streak := 0;
    var completedWork := Filter(daySessions, IsCompletedWork);
    var todayWorkSessions := SortBy(completedWork, Timestamp, Zero);
    SortByMembers(completedWork, Timestamp, Zero);
    FilterMembers(daySessions, IsCompletedWork);
    var i := 0;
    while i < |todayWorkSessions|
      invariant 0 <= i <= |todayWorkSessions|
      invariant streak == i
    {
      if todayWorkSessions[i].completed {
        streak := streak + 1;
      } else {
        break;
      }
      i := i + 1;
    }
    r := DailyStats(
      sessions := |daySessions|,
      focusTime := FocusTime(daySessions),
      tasksCompleted := TasksCompletedOn(logs.tasks, day),
      streak := streak,
      date := day,
      workSessions := Count(daySessions, IsWork),
      shortBreakSessions := Count(daySessions, IsShortBreak),
      longBreakSessions := Count(daySessions, IsLongBreak),
      remindersShown := Sum(daySessions, ShownCount),
      remindersCompleted := CompletionsOn(logs.completions, day));
  }

  /** Every session is exactly one of work, short break and long break. */
  lemma {:induction false} KindPartition(s: seq<Session>)
    ensures Count(s, IsWork) + Count(s, IsShortBreak) + Count(s, IsLongBreak) == |s|
  {
    if s != [] {
      KindPartition(s[1..]);
    }
  }

  /** Completed work sessions are among the work sessions. */
  lemma {:induction false} CompletedWorkBound(s: seq<Session>)
    ensures Count(s, IsCompletedWork) <= Count(s, IsWork)
  {
    if s != [] {
      CompletedWorkBound(s[1..]);
    }
  }

  /**
    * The day's sessions split into work, short and long breaks; the streak
    * counts completed work sessions and never exceeds them; a task counts at
    * most once.
    */
  lemma DayStatsPartition(logs: Logs, day: int)
    ensures var st := DayStats(logs, day);
      st.workSessions + st.shortBreakSessions + st.longBreakSessions == st.sessions
      && 0 <= st.streak <= st.workSessions
      && 0 <= st.tasksCompleted <= |logs.tasks|
      && st.date == day
  {
    var ds := SessionsOn(logs.sessions, day);
    KindPartition(ds);
    CompletedWorkBound(ds);
  }

  /** A session is counted on exactly one day: the calendar day of its timestamp. */
  lemma SessionCountedOnItsDay(sessions: seq<Session>, i: int, day: int)
    requires 0 <= i < |sessions|
    ensures sessions[i] in SessionsOn(sessions, day) <==> DayOf(sessions[i].timestamp) == day
  {
    InDayWindowIff(sessions[i].timestamp, day);
    FilterMembers(sessions, OnDay(day));
  }

  // ---------------------------------------------------------------------
  // Weekly and monthly folds
  // ---------------------------------------------------------------------

  datatype WeeklyStats = WeeklyStats(
    totalSessions: int,
    totalFocusTime: int,
    totalTasksCompleted: int,
    averageSessionsPerDay: real,
    bestDay: int,
    weekStart: int,
    weekEnd: int,
    dailyBreakdown: seq<DailyStats>)

  datatype MonthlyStats = MonthlyStats(
    totalSessions: int,
    totalFocusTime: int,
    totalTasksCompleted: int,
    averageSessionsPerDay: real,
    bestDay: int,
    month: int,
    year: int,
    weeklyBreakdown: seq<WeeklyStats>,
    dailyBreakdown: seq<DailyStats>)

  function SessionsOf(d: DailyStats): int { d.sessions }
  function FocusOf(d: DailyStats): int { d.focusTime }
  function TasksOf(d: DailyStats): int { d.tasksCompleted }

  /** `getWeekStart`: the Sunday starting the week of `day`. */
  function WeekStart(day: int): int
  {
    day - Weekday(day)
  }

  /**
    * `b[k]` is the best day of `b`: the earliest day with strictly the most
    * sessions, or the first day when no day has a session.
    */
  predicate IsBestDay(b: seq<DailyStats>, k: int)
  {
    0 <= k < |b|
    && ((forall j :: 0 <= j < |b| ==> b[j].sessions <= 0) ==> k == 0)
    && ((exists j :: 0 <= j < |b| && b[j].sessions > 0) ==>
          b[k].sessions > 0
          && (forall j :: 0 <= j < |b| ==> b[j].sessions <= b[k].sessions)
          && (forall j :: 0 <= j < k ==> b[j].sessions < b[k].sessions))
  }

  /**
    * `w` is the week holding `date`: the seven days from its Sunday, their
    * totals, average and best day.
    */
  predicate IsWeekOf(logs: Logs, date: int, w: WeeklyStats)
  {
    w.weekStart == WeekStart(date) && w.weekEnd == w.weekStart + 6
    && |w.dailyBreakdown| == 7
    && DaysFrom(logs, w.weekStart, w.dailyBreakdown)
    && Totals(w.dailyBreakdown, w.totalSessions, w.totalFocusTime, w.totalTasksCompleted)
    && w.averageSessionsPerDay == w.totalSessions as real / 7.0
    && w.bestDay == w.weekStart + BestIndex(w.dailyBreakdown)
  }

  /**
    * `getWeeklyStats(date)`: the seven days from the week's Sunday, their
    * totals and the best day.
    */
  method GetWeeklyStats(logs: Logs, date: int) returns (w: WeeklyStats)
    ensures IsWeekOf(logs, date, w)
  {
    var weekStart := WeekStart(date);
    var dailyBreakdown, totalSessions, totalFocusTime, totalTasksCompleted, best, _ := ScanDays(logs, weekStart, 7);
    w := WeeklyStats(totalSessions, totalFocusTime, totalTasksCompleted, totalSessions as real / 7.0,
                     weekStart + best, weekStart, weekStart + 6, dailyBreakdown);
  }

  /**
    * The day loop shared by `getWeeklyStats` and `getMonthlyStats`: the
    * statistics of `n` consecutive days from `start`, their running totals,
    * and the first day with strictly the most sessions (kept only when it
    * beats the previous best, starting from 0 sessions on the first day).
    */
  method ScanDays(logs: Logs, start: int, n: nat)
    returns (days: seq<DailyStats>, sessions: int, focus: int, tasks: int, bestIdx: int, bestCount: int)
    ensures |days| == n
    ensures Scanned(logs, start, days, sessions, focus, tasks, bestIdx, bestCount)
  {
    days, sessions, focus, tasks, bestIdx, bestCount := [], 0, 0, 0, 0, 0;
    for i := 0 to n
      invariant |days| == i
      invariant Scanned(logs, start, days, sessions, focus, tasks, bestIdx, bestCount)
    {
      var dayStats := GetDailyStats(logs, start + i);
      ScanStep(logs, start, days, sessions, focus, tasks, bestIdx, bestCount, dayStats);
      sessions := sessions + dayStats.sessions;
      focus := focus + dayStats.focusTime;
      tasks := tasks + dayStats.tasksCompleted;
      if dayStats.sessions > bestCount {
        bestCount := dayStats.sessions;
        bestIdx := i;
      }
      days := days + [dayStats];
    }
  }

  /** `b` holds the statistics of consecutive days from `start`. */
  predicate DaysFrom(logs: Logs, start: int, b: seq<DailyStats>)
  {
    b == [] || (DaysFrom(logs, start, b[..|b| - 1]) && b[|b| - 1] == DayStats(logs, start + |b| - 1))
  }

  lemma DaysFromStep(logs: Logs, start: int, b: seq<DailyStats>, d: DailyStats)
    requires DaysFrom(logs, start, b) && d == DayStats(logs, start + |b|)
    ensures DaysFrom(logs, start, b + [d])
  {
    assert (b + [d])[..|b|] == b;
  }

  /** Entry `j` of a run of days from `start` is the statistics of day `start + j`. */
  lemma {:induction false} DaysFromAt(logs: Logs, start: int, b: seq<DailyStats>, j: int)
    requires DaysFrom(logs, start, b) && 0 <= j < |b|
    ensures b[j] == DayStats(logs, start + j)
  {
    if j < |b| - 1 {
      DaysFromAt(logs, start, b[..|b| - 1], j);
    }
  }

  /** The running totals of the days scanned so far. */
  predicate Totals(b: seq<DailyStats>, sessions: int, focus: int, tasks: int)
  {
    sessions == Sum(b, SessionsOf) && focus == Sum(b, FocusOf) && tasks == Sum(b, TasksOf)
  }

  lemma TotalsStep(b: seq<DailyStats>, d: DailyStats, sessions: int, focus: int, tasks: int)
    requires Totals(b, sessions, focus, tasks)
    ensures Totals(b + [d], sessions + d.sessions, focus + d.focusTime, tasks + d.tasksCompleted)
  {
    SumAppend(b, [d], SessionsOf);
    SumAppend(b, [d], FocusOf);
    SumAppend(b, [d], TasksOf);
  }

  /** The state of the day-by-day scan after the days of `b`, from `start`. */
  predicate Scanned(logs: Logs, start: int, b: seq<DailyStats>, sessions: int, focus: int, tasks: int,
                    bestIdx: int, bestCount: int)
  {
    DaysFrom(logs, start, b) && Totals(b, sessions, focus, tasks)
    && bestIdx == BestIndex(b) && bestCount == BestCount(b)
  }

  lemma ScanStep(logs: Logs, start: int, b: seq<DailyStats>, sessions: int, focus: int, tasks: int,
                 bestIdx: int, bestCount: int, d: DailyStats)
    requires Scanned(logs, start, b, sessions, focus, tasks, bestIdx, bestCount)
    requires d == DayStats(logs, start + |b|)
    ensures Scanned(logs, start, b + [d], sessions + d.sessions, focus + d.focusTime, tasks + d.tasksCompleted,
                    if d.sessions > bestCount then |b| else bestIdx,
                    if d.sessions > bestCount then d.sessions else bestCount)
  {
    DaysFromStep(logs, start, b, d);
    TotalsStep(b, d, sessions, focus, tasks);
    assert (b + [d])[..|b|] == b;
  }

  lemma DayStatsNonNegative(logs: Logs, day: int)
    ensures DayStats(logs, day).sessions >= 0
  {
  }

  /** The loop state of the best-day search after scanning `b`. */
  predicate BestSoFar(b: seq<DailyStats>, k: int, best: int)
  {
    best >= 0
    && (forall j :: 0 <= j < |b| ==> b[j].sessions <= best)
    && (best == 0 ==> k == 0)
    && (best > 0 ==> 0 <= k < |b| && b[k].sessions == best && forall j :: 0 <= j < k ==> b[j].sessions < best)
  }

  lemma BestStep(b: seq<DailyStats>, d: DailyStats, k: int, best: int)
    requires BestSoFar(b, k, best)
    ensures d.sessions > best ==> BestSoFar(b + [d], |b|, d.sessions)
    ensures d.sessions <= best ==> BestSoFar(b + [d], k, best)
  {
  }

  /** The session count of the best day found by the scan over `b`. */
  function BestCount(b: seq<DailyStats>): int
  {
    if b == [] then 0
    else if b[|b| - 1].sessions > BestCount(b[..|b| - 1]) then b[|b| - 1].sessions
    else BestCount(b[..|b| - 1])
  }

  /** The index the scan over `b` settles on: it moves only on a strictly larger count. */
  function BestIndex(b: seq<DailyStats>): int
  {
    if b == [] then 0
    else if b[|b| - 1].sessions > BestCount(b[..|b| - 1]) then |b| - 1
    else BestIndex(b[..|b| - 1])
  }

  lemma {:induction false} BestFold(b: seq<DailyStats>)
    ensures BestSoFar(b, BestIndex(b), BestCount(b))
  {
    if b != [] {
      var prefix := b[..|b| - 1];
      BestFold(prefix);
      BestStep(prefix, b[|b| - 1], BestIndex(prefix), BestCount(prefix));
      assert prefix + [b[|b| - 1]] == b;
    }
  }

  /** The scan finds the best day of a non-empty run of days. */
  lemma BestIndexIsBest(b: seq<DailyStats>)
    requires |b| > 0
    ensures IsBestDay(b, BestIndex(b))
  {
    BestFold(b);
    BestSoFarIsBest(b, BestIndex(b), BestCount(b));
  }

  lemma BestSoFarIsBest(b: seq<DailyStats>, k: int, best: int)
    requires BestSoFar(b, k, best) && |b| > 0
    ensures IsBestDay(b, k)
  {
  }

  /** `Math.ceil(daysInMonth / 7)`. */
  function WeeksIn(days: int): int
  {
    (days + 6) / 7
  }

  /**
    * `getMonthlyStats(year, month)`: one day record per day of the month,
    * their totals and best day, and the weeks starting on days 1, 8, 15, ...
    */
  method GetMonthlyStats(logs: Logs, year: int, month: int) returns (m: MonthlyStats)
    requires 1 <= month <= 12
    ensures var first := DaysFromCivil(year, month, 1);
      var n := DaysInMonth(year, month);
      |m.dailyBreakdown| == n
      && DaysFrom(logs, first, m.dailyBreakdown)
      && Totals(m.dailyBreakdown, m.totalSessions, m.totalFocusTime, m.totalTasksCompleted)
      && m.averageSessionsPerDay == m.totalSessions as real / n as real
      && m.bestDay == first + BestIndex(m.dailyBreakdown)
      && |m.weeklyBreakdown| == WeeksIn(n)
      && WeeksFrom(logs, first, m.weeklyBreakdown)
      && m.month == month && m.year == year
  {
    var monthStart := DaysFromCivil(year, month, 1);
    var daysInMonth := DaysInMonth(year, month);
    var dailyBreakdown, totalSessions, totalFocusTime, totalTasksCompleted, best, _ := ScanDays(logs, monthStart, daysInMonth);
    var weeklyBreakdown := WeeksOf(logs, monthStart, WeeksIn(daysInMonth));
    m := MonthlyStats(totalSessions, totalFocusTime, totalTasksCompleted,
                      totalSessions as real / daysInMonth as real, monthStart + best, month, year,
                      weeklyBreakdown, dailyBreakdown);
  }

  /**
    * The week loop of `getMonthlyStats`: the weeks holding the days 1, 8,
    * 15, ... of the month. `new Date(year, month - 1, week * 7 + 1)` is
    * `7 * week` days after the first (`DaysFromCivilLinear`).
    */
  method WeeksOf(logs: Logs, first: int, weeksInMonth: nat) returns (weeklyBreakdown: seq<WeeklyStats>)
    ensures |weeklyBreakdown| == weeksInMonth
    ensures WeeksFrom(logs, first, weeklyBreakdown)
  {
    weeklyBreakdown := [];
    for week := 0 to weeksInMonth
      invariant |weeklyBreakdown| == week
      invariant WeeksFrom(logs, first, weeklyBreakdown)
    {
      var weekDate := first + week * 7;
      var weekStats := GetWeeklyStats(logs, weekDate);
      WeeksFromStep(logs, first, weeklyBreakdown, weekDate, weekStats);
      weeklyBreakdown := weeklyBreakdown + [weekStats];
    }
  }

  /** `ws` holds the weeks of the days `start`, `start + 7`, `start + 14`, ... */
  predicate WeeksFrom(logs: Logs, start: int, ws: seq<WeeklyStats>)
  {
    ws == [] || (WeeksFrom(logs, start, ws[..|ws| - 1]) && IsWeekOf(logs, start + 7 * (|ws| - 1), ws[|ws| - 1]))
  }

  lemma WeeksFromStep(logs: Logs, start: int, ws: seq<WeeklyStats>, date: int, w: WeeklyStats)
    requires WeeksFrom(logs, start, ws) && date == start + 7 * |ws| && IsWeekOf(logs, date, w)
    ensures WeeksFrom(logs, start, ws + [w])
  {
    assert (ws + [w])[..|ws|] == ws;
  }

  /** Entry `k` of the weekly breakdown is the week holding day `start + 7 * k`. */
  lemma {:induction false} WeeksFromAt(logs: Logs, start: int, ws: seq<WeeklyStats>, k: int)
    requires WeeksFrom(logs, start, ws) && 0 <= k < |ws|
    ensures IsWeekOf(logs, start + 7 * k, ws[k])
  {
    if k < |ws| - 1 {
      WeeksFromAt(logs, start, ws[..|ws| - 1], k);
    }
  }

  /** A month of 28 to 31 days has 4 or 5 weekly entries. */
  lemma WeeksInMonth(year: int, month: int)
    requires 1 <= month <= 12
    ensures 4 <= WeeksIn(DaysInMonth(year, month)) <= 5
    ensures WeeksIn(DaysInMonth(year, month)) == 4 <==> DaysInMonth(year, month) == 28
  {
  }

  // ---------------------------------------------------------------------
  // Consecutive active days (calculateConsecutiveActiveDaysStreak)
  // ---------------------------------------------------------------------

  function DateOf(d: DailyStats): int { d.date }

  /** `sortedStats.find(stat => stat.date === day)`. */
  function FindDay(stats: seq<DailyStats>, day: int): Option<DailyStats>
  {
    if stats == [] then None
    else if stats[0].date == day then Some(stats[0])
    else FindDay(stats[1..], day)
  }

  /** A stored record for `day` (the first one found) has a session. */
  predicate ActiveDay(stats: seq<DailyStats>, day: int)
  {
    FindDay(stats, day).Some? && FindDay(stats, day).value.sessions > 0
  }

  /** Active days counted backwards from `day`, at most `limit` of them. */
  function RunBack(stats: seq<DailyStats>, day: int, limit: nat): nat
    decreases limit
  {
    if limit == 0 || !ActiveDay(stats, day) then 0
    else 1 + RunBack(stats, day - 1, limit - 1)
  }

  /** The streak counts from today when today is active, else from yesterday. */
  function StreakStart(stats: seq<DailyStats>, today: int): int
  {
    if ActiveDay(stats, today) then today else today - 1
  }

  /** Consecutive days with a stored session, up to the loop's safety stop after 366. */
  const MaxStreak: nat := 366

  /**
    * `calculateConsecutiveActiveDaysStreak`: sorts the stored records newest
    * first, then counts active days back from today (or yesterday).
    */
  method ConsecutiveActiveDaysStreak(stored: seq<DailyStats>, today: int) returns (streak: nat)
    ensures streak == RunBack(SortBy(stored, DateOf, Zero), StreakStart(SortBy(stored, DateOf, Zero), today), MaxStreak)
  {
    if |stored| == 0 {
      return 0;
    }
    var sortedStats := SortBy(stored, DateOf, Zero);
    streak := 0;
    var currentDate := today;
    var todayStats := FindDay(sortedStats, today);
    if !(todayStats.Some? && todayStats.value.sessions > 0) {
      currentDate := currentDate - 1;
    }
    ghost var start := currentDate;
    while true
      invariant streak <= MaxStreak
      invariant currentDate == start - streak
      invariant RunBack(sortedStats, start, MaxStreak) == streak + RunBack(sortedStats, currentDate, MaxStreak - streak)
      decreases MaxStreak - streak
    {
      var dayStats := FindDay(sortedStats, currentDate);
      if dayStats.Some? && dayStats.value.sessions > 0 {
        streak := streak + 1;
        currentDate := currentDate - 1;
      } else {
        break;
      }
      if streak > 365 {
        break;
      }
    }
  }

  /**
    * The run counts only active days, at most `limit`, and stops at the
    * first inactive day unless the limit cut it short.
    */
  lemma {:induction false} RunBackMeaning(stats: seq<DailyStats>, day: int, limit: nat)
    ensures RunBack(stats, day, limit) <= limit
    ensures forall d :: day - RunBack(stats, day, limit) < d <= day ==> ActiveDay(stats, d)
    ensures RunBack(stats, day, limit) < limit ==> !ActiveDay(stats, day - RunBack(stats, day, limit))
    decreases limit
  {
    if limit > 0 && ActiveDay(stats, day) {
      RunBackMeaning(stats, day - 1, limit - 1);
    }
  }
}
