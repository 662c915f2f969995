/**
  * lib/statistics-engine.ts: the home page's focus line, the statistics of
  * a range of days, the productivity insights and the quick summary, all
  * built on the rollups of the store's logs.
  */
module Engine {

  import opened Options
  import opened Domain
  import opened Calendar
  import opened Seqs
  import opened Text
  import opened Stats
  import opened Rollups

  /** `Math.round`: the nearest integer, a half rounded up. */
  function Round(x: real): (r: int)
    ensures x - 0.5 < r as real <= x + 0.5
  {
    (x + 0.5).Floor
  }

  // ---------------------------------------------------------------------
  // getHomepageFocusStats
  // ---------------------------------------------------------------------

  datatype HomeFocus = HomeFocus(currentSessions: int, focusLabel: string, goalProgress: string, completionRate: int)

  /** `settings.dailySessionGoal || 4`: an unset (zero) goal falls back to four. */
  function FocusGoal(settings: Settings): (goal: int)
    ensures settings.dailySessionGoal != 0 ==> goal == settings.dailySessionGoal
    ensures goal != 0
  {
    if settings.dailySessionGoal == 0 then 4 else settings.dailySessionGoal
  }

  function Min(a: int, b: int): int
  {
    if a <= b then a else b
  }

  /** `Goal p / g`. */
  function GoalLabel(progress: int, goal: int): string
  {
    "Goal " + IntToString(progress) + " / " + IntToString(goal)
  }

  /** A positive whole number of times an amount has the amount's sign. */
  lemma {:induction false} ScaledSign(e: real, n: int)
    requires n >= 1
    ensures e > 0.0 ==> e * n as real > 0.0
    ensures e < 0.0 ==> e * n as real < 0.0
    decreases n
  {
    if n > 1 {
      ScaledSign(e, n - 1);
      assert e * n as real == e * (n - 1) as real + e;
    }
  }

  /** The share of a positive goal reached, capped progress over goal, lies between 0 and 100 per cent. */
  lemma ShareBounds(progress: int, goal: int)
    ensures goal > 0 && 0 <= progress <= goal ==> 0.0 <= progress as real / goal as real * 100.0 <= 100.0
    ensures goal > 0 && progress == goal ==> progress as real / goal as real * 100.0 == 100.0
  {
    if goal > 0 && 0 <= progress <= goal {
      var q := progress as real / goal as real;
      assert q * goal as real == progress as real;
      assert (q - 1.0) * goal as real == q * goal as real - goal as real;
      ScaledSign(q - 1.0, goal);
      ScaledSign(q, goal);
    }
  }

  /**
    * `getHomepageFocusStats` over today's statistics and the settings: the
    * sessions so far, progress capped at the goal, and the share of the goal
    * reached, as a rounded percentage.
    */
  function HomepageFocusStats(today: DailyStats, settings: Settings): (r: HomeFocus)
    ensures var goal := FocusGoal(settings);
      var progress := if today.sessions <= goal then today.sessions else goal;
      r.currentSessions == today.sessions
      && r.goalProgress == GoalLabel(progress, goal)
      && r.focusLabel == "FOCUS • " + IntToString(today.sessions) + " sessions today • " + r.goalProgress
    ensures FocusGoal(settings) > 0 && today.sessions >= 0 ==> 0 <= r.completionRate <= 100
    ensures FocusGoal(settings) > 0 && today.sessions >= FocusGoal(settings) ==> r.completionRate == 100
    ensures FocusGoal(settings) > 0 && today.sessions == 0 ==> r.completionRate == 0
  {
    var goal := FocusGoal(settings);
    var progress := Min(today.sessions, goal);
    var goalLabel := GoalLabel(progress, goal);
    ShareBounds(progress, goal);
    HomeFocus(
      currentSessions := today.sessions,
      focusLabel := "FOCUS • " + IntToString(today.sessions) + " sessions today • " + goalLabel,
      goalProgress := goalLabel,
      completionRate := Round(progress as real / goal as real * 100.0))
  }

  // ---------------------------------------------------------------------
  // getStatsForDateRange
  // ---------------------------------------------------------------------

  datatype RangeStats = RangeStats(
    sessions: int,
    focusTime: int,
    tasksCompleted: int,
    breakRemindersCompleted: int,
    dailyBreakdown: seq<DailyStats>)

  /** 23:59:59 of a day: the last second the range ends at, as the code builds it. */
  const LastSecond: int := 86399000

  /**
    * The range as written: from midnight of the first day to 23:59:59.000 of
    * the last, which leaves out the last 999 ms of the last day.
    */
  function RangeAsWritten(startDay: int, endDay: int): DateRange
  {
    DateRange(StartOfDay(startDay), StartOfDay(endDay) + LastSecond)
  }

  /** The range of whole days from `startDay` through `endDay`, ends included. */
  function DayRange(startDay: int, endDay: int): DateRange
  {
    DateRange(StartOfDay(startDay), EndOfDay(endDay))
  }

  /** A timestamp is inside the range of whole days exactly when its calendar day is one of them. */
  lemma DayRangeMeaning(t: int, startDay: int, endDay: int)
    ensures DayRange(startDay, endDay).start <= t <= DayRange(startDay, endDay).end <==> startDay <= DayOf(t) <= endDay
  {
    DayOfBounds(t);
    if DayOf(t) < startDay {
      assert EndOfDay(DayOf(t)) < StartOfDay(startDay);
    }
    if DayOf(t) > endDay {
      assert EndOfDay(endDay) < StartOfDay(DayOf(t));
    }
  }

  /** The number of days from `startDay` through `endDay`. */
  function DaysIn(startDay: int, endDay: int): nat
  {
    if startDay <= endDay then endDay - startDay + 1 else 0
  }

  /**
    * `getStatsForDateRange(startDate, endDate)` at `now`: the sessions inside
    * the range and their minutes of work, the completed tasks (the task
    * rollup does not narrow by the range), the reminder completions inside
    * the range, and the statistics of every day of the range. The range ends
    * at 23:59:59.000 of the last day (`RangeAsWritten`), while the daily
    * breakdown covers whole days, so the range total is at most the sum of
    * the breakdown (`RangeIsBreakdown` is the whole-day total).
    */
  method GetStatsForDateRange(logs: Logs, reminders: seq<BreakReminder>, stored: seq<DailyStats>,
                              startDay: int, endDay: int, now: int) returns (r: RangeStats)
    ensures var inRange := Filter(logs.sessions, SessionInRange(RangeAsWritten(startDay, endDay)));
      r.sessions == |inRange| && r.focusTime == FocusTime(inRange)
    ensures r.tasksCompleted == GetTaskStats(logs.tasks, stored, DayOf(now)).completedTasks
    ensures r.breakRemindersCompleted
         == |Filter(logs.completions, CompletionInRange(RangeAsWritten(startDay, endDay)))|
    ensures |r.dailyBreakdown| == DaysIn(startDay, endDay)
    ensures DaysFrom(logs, startDay, r.dailyBreakdown)
    ensures r.sessions <= Sum(r.dailyBreakdown, SessionsOf)
  {
    var dateRange := RangeAsWritten(startDay, endDay);
    var sessions := Filter(logs.sessions, SessionInRange(dateRange));
    var taskStats := GetTaskStats(logs.tasks, stored, DayOf(now));
    var breakReminderStats := GetBreakReminderStats(logs.sessions, logs.completions, reminders, stored, Some(dateRange));
    var dailyBreakdown := Breakdown(logs, startDay, endDay);
    var totalFocusTime := FocusTime(sessions);
    r := RangeStats(|sessions|, totalFocusTime, taskStats.completedTasks,
                    breakReminderStats.totalRemindersCompleted, dailyBreakdown);
    RangeIsBreakdown(logs, startDay, endDay, dailyBreakdown);
    RangeAsWrittenWithinDays(logs.sessions, startDay, endDay);
  }

  /** The range as written lies inside the range of whole days, so it counts no more sessions. */
  lemma RangeAsWrittenWithinDays(sessions: seq<Session>, startDay: int, endDay: int)
    ensures Count(sessions, SessionInRange(RangeAsWritten(startDay, endDay)))
         <= Count(sessions, SessionInRange(DayRange(startDay, endDay)))
  {
    CountMonotone(sessions, SessionInRange(RangeAsWritten(startDay, endDay)), SessionInRange(DayRange(startDay, endDay)));
  }

  /** The day loop of `getStatsForDateRange`: each day's statistics, from the first day through the last. */
  method Breakdown(logs: Logs, startDay: int, endDay: int) returns (dailyBreakdown: seq<DailyStats>)
    ensures |dailyBreakdown| == DaysIn(startDay, endDay)
    ensures DaysFrom(logs, startDay, dailyBreakdown)
  {
    dailyBreakdown := [];
    var currentDate := startDay;
    while currentDate <= endDay
      invariant startDay <= currentDate && (currentDate <= endDay + 1 || currentDate == startDay)
      invariant |dailyBreakdown| == currentDate - startDay
      invariant DaysFrom(logs, startDay, dailyBreakdown)
      decreases endDay - currentDate
    {
      var dayStats := GetDailyStats(logs, currentDate);
      DaysFromStep(logs, startDay, dailyBreakdown, dayStats);
      dailyBreakdown := dailyBreakdown + [dayStats];
      currentDate := currentDate + 1;
    }
  }

  /** The range's session count is the sum of its daily breakdown, for any run of days, empty or not. */
  lemma RangeIsBreakdown(logs: Logs, startDay: int, endDay: int, b: seq<DailyStats>)
    requires DaysFrom(logs, startDay, b) && |b| == DaysIn(startDay, endDay)
    ensures Sum(b, SessionsOf) == Count(logs.sessions, SessionInRange(DayRange(startDay, endDay)))
  {
    if startDay <= endDay {
      BreakdownSessions(logs, startDay, b);
    } else {
      BreakdownSessions(logs, startDay, b);
      forall s: Session ensures !SessionInRange(DayRange(startDay, endDay))(s) {
        DayRangeMeaning(s.timestamp, startDay, endDay);
      }
      FilterNone(logs.sessions, SessionInRange(DayRange(startDay, endDay)));
    }
  }

  /**
    * The daily breakdown of a run of days holds, day by day, exactly the
    * sessions of the range those days span: none is counted twice or lost.
    */
  lemma {:induction false} BreakdownSessions(logs: Logs, startDay: int, b: seq<DailyStats>)
    requires DaysFrom(logs, startDay, b)
    ensures Sum(b, SessionsOf) == Count(logs.sessions, SessionInRange(DayRange(startDay, startDay + |b| - 1)))
    decreases |b|
  {
    var range := DayRange(startDay, startDay + |b| - 1);
    if b == [] {
      FilterNone(logs.sessions, SessionInRange(range));
    } else {
      var front := b[..|b| - 1];
      var day := startDay + |b| - 1;
      BreakdownSessions(logs, startDay, front);
      assert b == front + [b[|b| - 1]];
      SumAppend(front, [b[|b| - 1]], SessionsOf);
      var earlier := DayRange(startDay, day - 1);
      forall s: Session
        ensures SessionInRange(range)(s) <==> SessionInRange(earlier)(s) || OnDay(day)(s)
        ensures !(SessionInRange(earlier)(s) && OnDay(day)(s))
      {
        InDayWindowIff(s.timestamp, day);
        DayRangeMeaning(s.timestamp, startDay, day);
        DayRangeMeaning(s.timestamp, startDay, day - 1);
      }
      CountSplit(logs.sessions, SessionInRange(range), SessionInRange(earlier), OnDay(day));
    }
  }

  /**
    * The code's range misses a session at 23:59:59.500 on its last day,
    * which that day's own statistics count: for the one-day range of day 0,
    * the breakdown sums to one session and the range total is none.
    */
  lemma RangeAsWrittenMissesLastSecond()
    ensures var s := Session("s", Work, 25, true, 86399500, None, None, None);
      var logs := Logs([s], [], []);
      |Filter(logs.sessions, SessionInRange(RangeAsWritten(0, 0)))| == 0
      && Sum([DayStats(logs, 0)], SessionsOf) == 1
  {
    var s := Session("s", Work, 25, true, 86399500, None, None, None);
    assert !SessionInRange(RangeAsWritten(0, 0))(s);
    assert OnDay(0)(s);
    assert SessionsOn([s], 0) == [s];
  }

  // ---------------------------------------------------------------------
  // getProductivityInsights
  // ---------------------------------------------------------------------

  /** The achievement messages, by what they announce. */
  datatype Achievement = ProductiveDay | Streak(days: int) | HighTaskCompletion | BreakCompliance

  /** The insight messages. */
  datatype Insight = ShortSessions | LargeTasks | FewBreaks

  /** The recommendation messages. */
  datatype Recommendation = MoreSessions | FewerTasks | ReviewsDue

  datatype Insights = Insights(insights: seq<Insight>, recommendations: seq<Recommendation>, achievements: seq<Achievement>)

  /** The achievements, in the order the code pushes them: each present exactly when its threshold is met. */
  method Achievements(pomodoro: PomodoroStats, tasks: TaskStats, breaks: BreakReminderStats)
    returns (achievements: seq<Achievement>)
    ensures ProductiveDay in achievements <==> pomodoro.sessionsToday >= 4
    ensures Streak(pomodoro.currentStreak) in achievements <==> pomodoro.currentStreak >= 4
    ensures forall k :: 0 <= k < |achievements| && achievements[k].Streak? ==>
              achievements[k].days == pomodoro.currentStreak
    ensures HighTaskCompletion in achievements <==> tasks.completionRate >= 80.0
    ensures BreakCompliance in achievements <==> breaks.completionRate >= 70.0
    ensures Distinct(achievements)
  {
    achievements := [];
    if pomodoro.sessionsToday >= 4 {
      achievements := achievements + [ProductiveDay];
    }
    if pomodoro.currentStreak >= 4 {
      DistinctAppend(achievements, Streak(pomodoro.currentStreak));
      achievements := achievements + [Streak(pomodoro.currentStreak)];
    }
    if tasks.completionRate >= 80.0 {
      DistinctAppend(achievements, HighTaskCompletion);
      achievements := achievements + [HighTaskCompletion];
    }
    if breaks.completionRate >= 70.0 {
      DistinctAppend(achievements, BreakCompliance);
      achievements := achievements + [BreakCompliance];
    }
  }

  /** The insights, each present exactly when its threshold is met. */
  method InsightsOf(pomodoro: PomodoroStats, tasks: TaskStats, breaks: BreakReminderStats)
    returns (insights: seq<Insight>)
    ensures ShortSessions in insights <==> pomodoro.averageSessionLength < 20.0
    ensures LargeTasks in insights <==> tasks.averageSessionsPerTask > 5.0
    ensures FewBreaks in insights <==> breaks.completionRate < 50.0
    ensures Distinct(insights)
  {
    insights := [];
    if pomodoro.averageSessionLength < 20.0 {
      insights := insights + [ShortSessions];
    }
    if tasks.averageSessionsPerTask > 5.0 {
      DistinctAppend(insights, LargeTasks);
      insights := insights + [LargeTasks];
    }
    if breaks.completionRate < 50.0 {
      DistinctAppend(insights, FewBreaks);
      insights := insights + [FewBreaks];
    }
  }

  /** The recommendations, each present exactly when its threshold is met. */
  method Recommendations(pomodoro: PomodoroStats, tasks: TaskStats, spaced: SpacedRepetitionStats)
    returns (recommendations: seq<Recommendation>)
    ensures MoreSessions in recommendations <==> pomodoro.sessionsToday < 2
    ensures FewerTasks in recommendations <==> tasks.activeTasks > 10
    ensures ReviewsDue in recommendations <==> |spaced.upcomingReviews| > 5
    ensures Distinct(recommendations)
  {
    recommendations := [];
    if pomodoro.sessionsToday < 2 {
      recommendations := recommendations + [MoreSessions];
    }
    if tasks.activeTasks > 10 {
      DistinctAppend(recommendations, FewerTasks);
      recommendations := recommendations + [FewerTasks];
    }
    if |spaced.upcomingReviews| > 5 {
      DistinctAppend(recommendations, ReviewsDue);
      recommendations := recommendations + [ReviewsDue];
    }
  }

  /**
    * `getProductivityInsights` over the dashboard's rollups: the three lists
    * of messages, each message present exactly when its threshold is met.
    * A day that earns the productivity achievement never also gets the
    * advice to do more sessions.
    */
  method GetProductivityInsights(pomodoro: PomodoroStats, tasks: TaskStats, breaks: BreakReminderStats,
                                 spaced: SpacedRepetitionStats) returns (r: Insights)
    ensures ProductiveDay in r.achievements <==> pomodoro.sessionsToday >= 4
    ensures Streak(pomodoro.currentStreak) in r.achievements <==> pomodoro.currentStreak >= 4
    ensures forall k :: 0 <= k < |r.achievements| && r.achievements[k].Streak? ==>
              r.achievements[k].days == pomodoro.currentStreak
    ensures HighTaskCompletion in r.achievements <==> tasks.completionRate >= 80.0
    ensures BreakCompliance in r.achievements <==> breaks.completionRate >= 70.0
    ensures ShortSessions in r.insights <==> pomodoro.averageSessionLength < 20.0
    ensures LargeTasks in r.insights <==> tasks.averageSessionsPerTask > 5.0
    ensures FewBreaks in r.insights <==> breaks.completionRate < 50.0
    ensures MoreSessions in r.recommendations <==> pomodoro.sessionsToday < 2
    ensures FewerTasks in r.recommendations <==> tasks.activeTasks > 10
    ensures ReviewsDue in r.recommendations <==> |spaced.upcomingReviews| > 5
    ensures !(ProductiveDay in r.achievements && MoreSessions in r.recommendations)
    ensures !(BreakCompliance in r.achievements && FewBreaks in r.insights)
    ensures Distinct(r.achievements) && Distinct(r.insights) && Distinct(r.recommendations)
  {
    var insights := InsightsOf(pomodoro, tasks, breaks);
    var recommendations := Recommendations(pomodoro, tasks, spaced);
    var achievements := Achievements(pomodoro, tasks, breaks);
    r := Insights(insights, recommendations, achievements);
  }

  // ---------------------------------------------------------------------
  // getStatsSummary
  // ---------------------------------------------------------------------

  /** The sessions a week is measured against: four a day for seven days. */
  const WeeklySessionGoal: int := 28

  datatype Summary = Summary(
    totalSessions: int,
    totalFocusHours: real,
    totalTasks: int,
    completedTasks: int,
    currentStreak: int,
    weeklyGoalProgress: int)

  /**
    * `getStatsSummary`: the totals, the minutes of focus as hours rounded to
    * one decimal, and this week's sessions as a rounded percentage of 28.
    */
  function StatsSummary(pomodoro: PomodoroStats, tasks: TaskStats, week: WeeklyStats): (r: Summary)
    ensures r.totalSessions == pomodoro.totalSessions && r.totalTasks == tasks.totalTasks
    ensures r.completedTasks == tasks.completedTasks && r.currentStreak == pomodoro.currentStreak
    ensures var hours := pomodoro.totalFocusTime as real / 60.0;
      hours - 0.05 < r.totalFocusHours <= hours + 0.05
      && (r.totalFocusHours * 10.0).Floor as real == r.totalFocusHours * 10.0
    ensures 0 <= week.totalSessions <= WeeklySessionGoal ==> 0 <= r.weeklyGoalProgress <= 100
    ensures week.totalSessions >= WeeklySessionGoal ==> r.weeklyGoalProgress >= 100
    ensures week.totalSessions == WeeklySessionGoal / 2 ==> r.weeklyGoalProgress == 50
  {
    var tenths := Round(pomodoro.totalFocusTime as real / 60.0 * 10.0);
    Summary(
      totalSessions := pomodoro.totalSessions,
      totalFocusHours := tenths as real / 10.0,
      totalTasks := tasks.totalTasks,
      completedTasks := tasks.completedTasks,
      currentStreak := pomodoro.currentStreak,
      weeklyGoalProgress := Round(week.totalSessions as real / WeeklySessionGoal as real * 100.0))
  }
}
