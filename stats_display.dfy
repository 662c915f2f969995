/**
  * components/stats/stats-display.tsx: how the statistics page shapes the
  * rollups for display: the minutes label, the motivational tier, the
  * monthly chart's weekly chunks, the pie-chart slices, the month grid of
  * the calendar, and the week and month navigation.
  */
module StatsDisplay {

  import opened Options
  import opened Domain
  import opened Calendar
  import opened Seqs
  import opened Text
  import opened Stats
  import opened Rollups
  import Display

  // ---------------------------------------------------------------------
  // formatTime
  // ---------------------------------------------------------------------

  /**
    * `formatTime(minutes)`: whole hours (floored) and the remaining minutes
    * (JavaScript remainder), the hours only when there is at least one.
    */
  function FormatTime(minutes: int): (r: string)
    ensures |r| >= 2 && r[|r| - 1] == 'm'
    ensures 0 <= minutes < 60 ==> r == NatToString(minutes) + "m"
  {
    var hours := minutes / 60;
    var mins := Display.JsRem(minutes, 60);
    if hours > 0 then IntToString(hours) + "h " + IntToString(mins) + "m" else IntToString(mins) + "m"
  }

  /**
    * From an hour on, the label reads back as the minutes: the number before
    * `h` counts hours, the number before `m` the minutes below 60.
    */
  lemma FormatTimeReadsBack(minutes: int)
    requires minutes >= 60
    ensures var h := NatToString(minutes / 60);
      var m := NatToString(minutes % 60);
      FormatTime(minutes) == h + "h " + m + "m"
      && DigitsValue(h) * 60 + DigitsValue(m) == minutes && DigitsValue(m) < 60
  {
    NatToStringRoundTrip(minutes / 60);
    NatToStringRoundTrip(minutes % 60);
  }

  // ---------------------------------------------------------------------
  // getMotivationalMessage
  // ---------------------------------------------------------------------

  /** The motivational messages, from no session to the goal reached. */
  datatype Motivation = Ready | GreatStart | GoodProgress | Halfway | AlmostThere | GoalAchieved

  /** The messages in increasing order of progress. */
  function Rank(m: Motivation): int
  {
    match m
    case Ready => 0
    case GreatStart => 1
    case GoodProgress => 2
    case Halfway => 3
    case AlmostThere => 4
    case GoalAchieved => 5
  }

  /** `getMotivationalMessage(sessions, dailyGoal)`: the first threshold met, checked from the top. */
  function MotivationalMessage(sessions: int, dailyGoal: int): (m: Motivation)
    ensures m == Ready <==> sessions == 0
    ensures m == GoalAchieved <==> sessions != 0 && sessions >= dailyGoal
  {
    if sessions == 0 then Ready
    else if sessions >= dailyGoal then GoalAchieved
    else if sessions as real >= dailyGoal as real * 0.75 then AlmostThere
    else if sessions as real >= dailyGoal as real * 0.5 then Halfway
    else if sessions as real >= dailyGoal as real * 0.25 then GoodProgress
    else GreatStart
  }

  /**
    * Once a session is done, more sessions never bring a lesser message, and
    * each message below the goal means its share of the goal.
    */
  lemma MotivationMonotone(s1: int, s2: int, dailyGoal: int)
    requires 1 <= s1 <= s2
    ensures Rank(MotivationalMessage(s1, dailyGoal)) <= Rank(MotivationalMessage(s2, dailyGoal))
    ensures MotivationalMessage(s1, dailyGoal) == Halfway ==>
      2 * s1 >= dailyGoal && 4 * s1 < 3 * dailyGoal
  {
  }

  // ---------------------------------------------------------------------
  // prepareMonthlyChartData
  // ---------------------------------------------------------------------

  /** One bar of the monthly chart: a run of up to seven days. */
  datatype WeekBar = WeekBar(
    weekStart: int,
    weekEnd: int,
    sessions: int,
    focusTime: int,
    tasks: int,
    breakRemindersCompleted: int)

  function RemindersCompletedOf(d: DailyStats): int { d.remindersCompleted }
  function BarSessions(w: WeekBar): int { w.sessions }
  function BarFocus(w: WeekBar): int { w.focusTime }
  function BarTasks(w: WeekBar): int { w.tasks }
  function BarReminders(w: WeekBar): int { w.breakRemindersCompleted }

  /** The bar of a non-empty run of days: its first and last dates and its sums. */
  function BarOf(chunk: seq<DailyStats>): WeekBar
    requires chunk != []
  {
    WeekBar(chunk[0].date, chunk[|chunk| - 1].date, Sum(chunk, SessionsOf), Sum(chunk, FocusOf),
            Sum(chunk, TasksOf), Sum(chunk, RemindersCompletedOf))
  }

  /** `dailyData.slice(i, i + 7)`. */
  function Slice7(daily: seq<DailyStats>, i: int): seq<DailyStats>
    requires 0 <= i <= |daily|
  {
    daily[i..if i + 7 <= |daily| then i + 7 else |daily|]
  }

  /** The bars' sums equal the sums of the days they cover. */
  predicate BarTotals(bars: seq<WeekBar>, days: seq<DailyStats>)
  {
    Sum(bars, BarSessions) == Sum(days, SessionsOf) && Sum(bars, BarFocus) == Sum(days, FocusOf)
    && Sum(bars, BarTasks) == Sum(days, TasksOf) && Sum(bars, BarReminders) == Sum(days, RemindersCompletedOf)
  }

  lemma BarTotalsStep(bars: seq<WeekBar>, days: seq<DailyStats>, chunk: seq<DailyStats>)
    requires BarTotals(bars, days) && chunk != []
    ensures BarTotals(bars + [BarOf(chunk)], days + chunk)
  {
    SumAppend(bars, [BarOf(chunk)], BarSessions);
    SumAppend(bars, [BarOf(chunk)], BarFocus);
    SumAppend(bars, [BarOf(chunk)], BarTasks);
    SumAppend(bars, [BarOf(chunk)], BarReminders);
    SumAppend(days, chunk, SessionsOf);
    SumAppend(days, chunk, FocusOf);
    SumAppend(days, chunk, TasksOf);
    SumAppend(days, chunk, RemindersCompletedOf);
  }

  /**
    * `prepareMonthlyChartData` over the month's days: one bar per run of
    * seven days from the first (the last run may be shorter), so
    * `ceil(n / 7)` bars, whose sums add up to the month's. A week's first
    * date is never empty text, so every run gets its bar.
    */
  method MonthlyChartData(daily: seq<DailyStats>) returns (weeklyData: seq<WeekBar>)
    ensures |weeklyData| == (|daily| + 6) / 7
    ensures forall k :: 0 <= k < |weeklyData| ==> weeklyData[k] == BarOf(Slice7(daily, 7 * k))
    ensures BarTotals(weeklyData, daily)
  {
    weeklyData := [];
    var i := 0;
    while i < |daily|
      invariant 0 <= i <= |daily| + 6 && i == 7 * |weeklyData|
      invariant i < |daily| + 7
      invariant forall k :: 0 <= k < |weeklyData| ==> weeklyData[k] == BarOf(Slice7(daily, 7 * k))
      invariant BarTotals(weeklyData, daily[..if i <= |daily| then i else |daily|])
    {
      var weekData := Slice7(daily, i);
      var end := if i + 7 <= |daily| then i + 7 else |daily|;
      assert daily[..end] == daily[..i] + weekData;
      BarTotalsStep(weeklyData, daily[..i], weekData);
      weeklyData := weeklyData + [BarOf(weekData)];
      i := i + 7;
    }
    assert daily[..|daily|] == daily;
    CeilWeeks(|daily|, |weeklyData|);
  }

  /** A count of weeks whose seven days first reach `n` is `ceil(n / 7)`. */
  lemma CeilWeeks(n: nat, weeks: nat)
    requires n <= 7 * weeks < n + 7
    ensures weeks == (n + 6) / 7
  {
  }

  // ---------------------------------------------------------------------
  // prepareSessionTypeData and prepareBreakReminderData
  // ---------------------------------------------------------------------

  datatype SliceName = WorkSessions | ShortBreaks | LongBreaks | Completed | Missed

  /** One slice of a pie chart. */
  datatype ChartSlice = ChartSlice(name: SliceName, value: int)

  function SliceValue(s: ChartSlice): int { s.value }

  predicate Positive(s: ChartSlice) { s.value > 0 }

  /**
    * `prepareSessionTypeData`: today's work, short-break and long-break
    * counts, without the empty ones, and nothing before today's statistics
    * are loaded.
    */
  function SessionTypeData(todayStats: Option<DailyStats>): (r: seq<ChartSlice>)
    ensures todayStats.None? ==> r == []
    ensures forall k :: 0 <= k < |r| ==> r[k].value > 0
    ensures todayStats.Some? ==> var d := todayStats.value;
      (ChartSlice(WorkSessions, d.workSessions) in r <==> d.workSessions > 0)
      && (ChartSlice(ShortBreaks, d.shortBreakSessions) in r <==> d.shortBreakSessions > 0)
      && (ChartSlice(LongBreaks, d.longBreakSessions) in r <==> d.longBreakSessions > 0)
  {
    if todayStats.None? then []
    else
      var d := todayStats.value;
      var all := [ChartSlice(WorkSessions, d.workSessions), ChartSlice(ShortBreaks, d.shortBreakSessions),
                  ChartSlice(LongBreaks, d.longBreakSessions)];
      assert all[0].name == WorkSessions && all[1].name == ShortBreaks && all[2].name == LongBreaks;
      FilterMembers(all, Positive);
      Filter(all, Positive)
  }

  /** The slices of a day's recomputed statistics add up to its sessions. */
  lemma SessionTypeSlicesSum(logs: Logs, day: int)
    ensures Sum(SessionTypeData(Some(DayStats(logs, day))), SliceValue) == DayStats(logs, day).sessions
  {
    var d := DayStats(logs, day);
    DayStatsPartition(logs, day);
    var all := [ChartSlice(WorkSessions, d.workSessions), ChartSlice(ShortBreaks, d.shortBreakSessions),
                ChartSlice(LongBreaks, d.longBreakSessions)];
    PositiveSlicesSum(all);
    assert all[1..][1..][1..] == [];
    assert Sum(all[1..][1..], SliceValue) == d.longBreakSessions;
    assert Sum(all[1..], SliceValue) == d.shortBreakSessions + d.longBreakSessions;
    assert Sum(all, SliceValue) == d.workSessions + d.shortBreakSessions + d.longBreakSessions;
  }

  /** Dropping slices that are not positive keeps the sum of slices that are never negative. */
  lemma {:induction false} PositiveSlicesSum(s: seq<ChartSlice>)
    ensures (forall k :: 0 <= k < |s| ==> s[k].value >= 0) ==> Sum(Filter(s, Positive), SliceValue) == Sum(s, SliceValue)
  {
    if s != [] {
      PositiveSlicesSum(s[1..]);
    }
  }

  /**
    * `prepareBreakReminderData`: the completed reminders and the missed ones
    * (shown less completed), without the empty ones.
    */
  function BreakReminderData(stats: Option<BreakReminderStats>): (r: seq<ChartSlice>)
    ensures stats.None? ==> r == []
    ensures forall k :: 0 <= k < |r| ==> r[k].value > 0
    ensures stats.Some? ==> var b := stats.value;
      (ChartSlice(Completed, b.totalRemindersCompleted) in r <==> b.totalRemindersCompleted > 0)
      && ((ChartSlice(Missed, b.totalRemindersShown - b.totalRemindersCompleted) in r)
            <==> b.totalRemindersShown > b.totalRemindersCompleted)
      && (0 <= b.totalRemindersCompleted <= b.totalRemindersShown ==> Sum(r, SliceValue) == b.totalRemindersShown)
  {
    if stats.None? then []
    else
      var b := stats.value;
      var all := [ChartSlice(Completed, b.totalRemindersCompleted),
                  ChartSlice(Missed, b.totalRemindersShown - b.totalRemindersCompleted)];
      assert all[0].name == Completed && all[1].name == Missed;
      assert all[1..][1..] == [];
      assert Sum(all[1..], SliceValue) == b.totalRemindersShown - b.totalRemindersCompleted;
      FilterMembers(all, Positive);
      PositiveSlicesSum(all);
      Filter(all, Positive)
  }

  // ---------------------------------------------------------------------
  // prepareCalendarData
  // ---------------------------------------------------------------------

  /** A cell of the month grid: empty, or a day with its statistics and the tasks due on it. */
  datatype CalendarCell = Blank | DayCell(stats: DailyStats, tasks: seq<Task>, isToday: bool, isPast: bool, dayNumber: int)

  /** The grid is six weeks of seven days. */
  const TotalCells: int := 42

  predicate InMonth(t: int, year: int, month: int)
  {
    CivilFromDays(DayOf(t)).month == month && CivilFromDays(DayOf(t)).year == year
  }

  /**
    * The `upcomingTasks` filter: open, unarchived tasks that are plain, or
    * whose enabled recurrence or review falls in the shown month.
    */
  predicate Upcoming(t: Task, year: int, month: int)
  {
    if t.completed || IsSet(t.archivedAt) then false
    else if t.recurring.None? && t.spaced.None? then true
    else if RecurringOn(t) then InMonth(t.recurring.value.nextDue, year, month)
    else if SpacedOn(t) then InMonth(t.spaced.value.nextReviewDate, year, month)
    else false
  }

  /** The `dayTasks` filter: an enabled recurrence or review falling on that day. */
  predicate DueOn(t: Task, day: int)
  {
    if RecurringOn(t) then DayOf(t.recurring.value.nextDue) == day
    else if SpacedOn(t) then DayOf(t.spaced.value.nextReviewDate) == day
    else false
  }

  function UpcomingIn(year: int, month: int): Task -> bool
  {
    (t: Task) => Upcoming(t, year, month)
  }

  function DueOnDay(day: int): Task -> bool
  {
    (t: Task) => DueOn(t, day)
  }

  /** The cell of day `dayNumber` of the month, which is day number `day`, seen at `now`. */
  function CellOf(logs: Logs, upcoming: seq<Task>, day: int, dayNumber: int, now: int): CalendarCell
  {
    DayCell(DayStats(logs, day), Filter(upcoming, DueOnDay(day)), DayOf(now) == day, StartOfDay(day) < now, dayNumber)
  }

  /**
    * `cells` is the grid of a month starting on day `firstDay` with `n` days:
    * 42 cells, blank up to the weekday of the first, then the days in order,
    * then blank again.
    */
  predicate IsMonthGrid(cells: seq<CalendarCell>, logs: Logs, upcoming: seq<Task>, firstDay: int, n: int, now: int)
  {
    var lead := Weekday(firstDay);
    |cells| == TotalCells && 0 <= n && lead + n <= TotalCells
    && (forall k :: 0 <= k < lead ==> cells[k] == Blank)
    && (forall k :: lead <= k < lead + n ==> cells[k] == CellOf(logs, upcoming, firstDay + k - lead, k - lead + 1, now))
    && (forall k :: lead + n <= k < TotalCells ==> cells[k] == Blank)
  }

  /**
    * `prepareCalendarData` for `year`-`month` at `now`: blank cells up to the
    * weekday of the first, then the days of the month in order, then blank
    * cells up to 42.
    */
  method CalendarData(logs: Logs, year: int, month: int, now: int) returns (calendarDays: seq<CalendarCell>)
    requires 1 <= month <= 12
    ensures IsMonthGrid(calendarDays, logs, Filter(logs.tasks, UpcomingIn(year, month)),
                        DaysFromCivil(year, month, 1), DaysInMonth(year, month), now)
  {
    var upcomingTasks := Filter(logs.tasks, UpcomingIn(year, month));
    var firstDay := DaysFromCivil(year, month, 1);
    var daysInMonth := DaysInMonth(year, month);
    calendarDays := MonthGrid(logs, upcomingTasks, firstDay, daysInMonth, now);
  }

  /** `n` blank cells. */
  function Blanks(n: nat): seq<CalendarCell>
  {
    seq(n, _ => Blank)
  }

  /** The cells of the first `n` days of the month that starts on day `firstDay`, in order. */
  function MonthDays(logs: Logs, upcoming: seq<Task>, firstDay: int, n: nat, now: int): seq<CalendarCell>
  {
    seq(n, k => CellOf(logs, upcoming, firstDay + k, k + 1, now))
  }

  /** The grid of the month whose first day is `firstDay` and which has `daysInMonth` days. */
  method MonthGrid(logs: Logs, upcomingTasks: seq<Task>, firstDay: int, daysInMonth: nat, now: int)
    returns (calendarDays: seq<CalendarCell>)
    requires daysInMonth <= 31
    ensures IsMonthGrid(calendarDays, logs, upcomingTasks, firstDay, daysInMonth, now)
  {
    var startingDayOfWeek := Weekday(firstDay);
    WeekdayRange(firstDay);
    var blanks := LeadingBlanks(startingDayOfWeek);
    var withDays := AddMonthDays(logs, upcomingTasks, firstDay, daysInMonth, now, blanks);
    calendarDays := PadGrid(withDays);
    assert calendarDays == Blanks(startingDayOfWeek) + MonthDays(logs, upcomingTasks, firstDay, daysInMonth, now)
                           + Blanks(TotalCells - startingDayOfWeek - daysInMonth);
    AssembledGrid(logs, upcomingTasks, firstDay, daysInMonth, now);
  }

  /** Blank cells up to the weekday of the first, then the days, then blank cells up to 42 make the month's grid. */
  lemma AssembledGrid(logs: Logs, upcoming: seq<Task>, firstDay: int, n: nat, now: int)
    requires Weekday(firstDay) + n <= TotalCells
    ensures var lead := Weekday(firstDay);
            IsMonthGrid(Blanks(lead) + MonthDays(logs, upcoming, firstDay, n, now) + Blanks(TotalCells - lead - n),
                        logs, upcoming, firstDay, n, now)
  {
    WeekdayRange(firstDay);
    var lead := Weekday(firstDay);
    var cell := (k: int) => CellOf(logs, upcoming, firstDay + k, k + 1, now);
    assert MonthDays(logs, upcoming, firstDay, n, now) == seq(n, cell);
    GridParts(lead, n, cell);
  }

  /** Where each cell of blanks, then `n` cells, then blanks up to 42 comes from. */
  lemma GridParts(lead: nat, n: nat, cell: int -> CalendarCell)
    requires lead + n <= TotalCells
    ensures var cells := Blanks(lead) + seq(n, cell) + Blanks(TotalCells - lead - n);
            |cells| == TotalCells
            && (forall k :: 0 <= k < lead ==> cells[k] == Blank)
            && (forall k :: lead <= k < lead + n ==> cells[k] == cell(k - lead))
            && (forall k :: lead + n <= k < TotalCells ==> cells[k] == Blank)
  {
  }

  /** The first loop of `prepareCalendarData`: a blank cell for each weekday before the first. */
  method LeadingBlanks(startingDayOfWeek: nat) returns (calendarDays: seq<CalendarCell>)
    ensures calendarDays == Blanks(startingDayOfWeek)
  {
    calendarDays := [];
    for i := 0 to startingDayOfWeek
      invariant calendarDays == Blanks(i)
    {
      assert Blanks(i + 1) == Blanks(i) + [Blank];
      calendarDays := calendarDays + [Blank];
    }
  }

  /**
    * The day loop of `prepareCalendarData`: one cell per day of the month
    * after the given cells. `new Date(year, month - 1, day)` is `day - 1`
    * days after the first of the month (`DaysFromCivilLinear`).
    */
  method AddMonthDays(logs: Logs, upcomingTasks: seq<Task>, firstDay: int, daysInMonth: nat, now: int,
                      cells: seq<CalendarCell>) returns (calendarDays: seq<CalendarCell>)
    ensures calendarDays == cells + MonthDays(logs, upcomingTasks, firstDay, daysInMonth, now)
  {
    calendarDays := cells;
    for day := 1 to daysInMonth + 1
      invariant calendarDays == cells + MonthDays(logs, upcomingTasks, firstDay, day - 1, now)
    {
      var currentDate := firstDay + (day - 1);
      assert MonthDays(logs, upcomingTasks, firstDay, day, now)
        == MonthDays(logs, upcomingTasks, firstDay, day - 1, now) + [CellOf(logs, upcomingTasks, currentDate, day, now)];
      calendarDays := calendarDays + [CellOf(logs, upcomingTasks, currentDate, day, now)];
    }
  }

  /** The padding loop of `prepareCalendarData`: blank cells until the grid holds 42. */
  method PadGrid(cells: seq<CalendarCell>) returns (calendarDays: seq<CalendarCell>)
    requires |cells| <= TotalCells
    ensures calendarDays == cells + Blanks(TotalCells - |cells|)
  {
    calendarDays := cells;
    while |calendarDays| < TotalCells
      invariant |cells| <= |calendarDays| <= TotalCells
      invariant calendarDays == cells + Blanks(|calendarDays| - |cells|)
      decreases TotalCells - |calendarDays|
    {
      assert Blanks(|calendarDays| - |cells| + 1) == Blanks(|calendarDays| - |cells|) + [Blank];
      calendarDays := calendarDays + [Blank];
    }
  }

  // ---------------------------------------------------------------------
  // navigateWeek and navigateMonth
  // ---------------------------------------------------------------------

  /** `navigateWeek`: seven days on or back, at the same time of day and on the same weekday. */
  function NavigateWeek(selected: int, next: bool): (r: int)
    ensures DayOf(r) == DayOf(selected) + (if next then 7 else -7)
    ensures TimeOfDay(r) == TimeOfDay(selected)
    ensures Weekday(DayOf(r)) == Weekday(DayOf(selected))
  {
    AddDaysDay(selected, if next then 7 else -7);
    WeekdayShift(DayOf(selected), if next then 7 else -7);
    AddDays(selected, if next then 7 else -7)
  }

  /** `navigateMonth`: one month on or back, keeping the date within the month and the time of day. */
  function NavigateMonth(selected: int, next: bool): int
  {
    AddMonths(selected, if next then 1 else -1)
  }

  /**
    * Moving a month keeps the time of day; from 31 January 2025 the next
    * month is 3 March (February has no 31st), and going back from there
    * lands on 3 February, not where it started.
    */
  lemma NavigateMonthRollsOver(t: int)
    ensures TimeOfDay(NavigateMonth(t, true)) == TimeOfDay(t) && TimeOfDay(NavigateMonth(t, false)) == TimeOfDay(t)
    ensures NavigateMonth(StartOfDay(DaysFromCivil(2025, 1, 31)), true) == StartOfDay(DaysFromCivil(2025, 3, 3))
    ensures NavigateMonth(StartOfDay(DaysFromCivil(2025, 3, 3)), false) == StartOfDay(DaysFromCivil(2025, 2, 3))
  {
    AddMonthsTimeOfDay(t, 1);
    AddMonthsTimeOfDay(t, -1);
    EarlyDays2025();
    CivilOf2025Days();
    DayOfBounds(StartOfDay(20119));
    InDayWindowIff(StartOfDay(20119), 20119);
    InDayWindowIff(StartOfDay(20150), 20150);
  }

  /** Day numbers of the dates around the end of January 2025. */
  lemma EarlyDays2025()
    ensures DaysFromCivil(2025, 1, 31) == 20119 && DaysFromCivil(2025, 2, 3) == 20122
    ensures DaysFromCivil(2025, 2, 31) == 20150 && DaysFromCivil(2025, 3, 3) == 20150
  {
    assert 0 / 12 == 0 && 1 / 12 == 0 && 2 / 12 == 0 && 0 % 12 == 0 && 1 % 12 == 1 && 2 % 12 == 2;
    assert 2024 / 400 == 5 && 2025 / 400 == 5;
    assert 24 / 4 == 6 && 24 / 100 == 0 && 25 / 4 == 6 && 25 / 100 == 0;
    assert (153 * 10 + 2) / 5 == 306 && (153 * 11 + 2) / 5 == 337 && (153 * 0 + 2) / 5 == 0;
  }

  /** The civil dates of day numbers 20119 and 20150. */
  lemma CivilOf2025Days()
    ensures CivilFromDays(20119) == Civil(2025, 1, 31) && CivilFromDays(20150) == Civil(2025, 3, 3)
  {
    assert 739587 / 146097 == 5 && 739618 / 146097 == 5;
    assert 9102 / 1460 == 6 && 9102 / 36524 == 0 && 9102 / 146096 == 0;
    assert 9133 / 1460 == 6 && 9133 / 36524 == 0 && 9133 / 146096 == 0;
    assert 9096 / 365 == 24 && 9127 / 365 == 25;
    assert 24 / 4 == 6 && 24 / 100 == 0 && 25 / 4 == 6 && 25 / 100 == 0;
    assert 1682 / 153 == 10 && 12 / 153 == 0;
    assert 1532 / 5 == 306 && 2 / 5 == 0;
  }
}
