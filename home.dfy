/**
  * The page component of app/page.tsx: the daily reset on load, logging a
  * finished session with today's statistics, the daily-goal toast and the
  * sign-up prompt, and crediting a focus session to its task.
  */
module Home {

  import opened Options
  import opened Domain
  import opened Calendar
  import opened Seqs
  import opened Scheduler
  import opened Stats
  import opened TaskSelection
  import Store

  // ---------------------------------------------------------------------
  // Today's statistics after a session
  // ---------------------------------------------------------------------

  /** The logs with one more session at the end. */
  function Appended(logs: Logs, s: Session): Logs
  {
    logs.(sessions := logs.sessions + [s])
  }

  /**
    * Recounting the day after logging a session of that day counts it once:
    * one more session, its minutes added to the focus time for work, one
    * more in the streak for completed work, and the rest as it was.
    */
  lemma RecountCountsOnce(logs: Logs, s: Session, day: int)
    requires InDayWindow(s.timestamp, day)
    ensures var b := DayStats(logs, day);
      var a := DayStats(Appended(logs, s), day);
      a.sessions == b.sessions + 1
      && a.focusTime == b.focusTime + (if s.kind == Work then s.duration else 0)
      && a.streak == b.streak + (if IsCompletedWork(s) then 1 else 0)
      && a.workSessions == b.workSessions + (if s.kind == Work then 1 else 0)
      && a.tasksCompleted == b.tasksCompleted && a.date == b.date
  {
    var ds := SessionsOn(logs.sessions, day);
    FilterAppend(logs.sessions, [s], OnDay(day));
    assert SessionsOn(logs.sessions + [s], day) == ds + [s];
    FilterAppend(ds, [s], IsWork);
    SumAppend(Filter(ds, IsWork), Filter([s], IsWork), Duration);
    FilterAppend(ds, [s], IsCompletedWork);
  }

  /**
    * The statistics record as the page builds it: the day recounted from the
    * logs (which already hold the new session), then the session added to it
    * once more.
    */
  function StatsAsWritten(recount: DailyStats, s: Session): DailyStats
  {
    recount.(sessions := recount.sessions + 1,
             focusTime := if s.kind == Work then recount.focusTime + s.duration else recount.focusTime,
             streak := if s.kind == Work then recount.streak + 1 else recount.streak)
  }

  /**
    * As written the new session is counted twice: the record shows two more
    * sessions than before it (and, for work, twice its minutes), one more
    * than the logs hold.
    */
  lemma SessionCountedTwice(logs: Logs, s: Session, day: int)
    requires InDayWindow(s.timestamp, day)
    ensures var b := DayStats(logs, day);
      var w := StatsAsWritten(DayStats(Appended(logs, s), day), s);
      w.sessions == b.sessions + 2
      && w.sessions == DayStats(Appended(logs, s), day).sessions + 1
      && (s.kind == Work ==> w.focusTime == b.focusTime + 2 * s.duration)
  {
    RecountCountsOnce(logs, s, day);
  }

  /**
    * The first session of a day already reads as two, so with a goal of two
    * sessions the goal toast fires after a single session.
    */
  lemma FirstSessionReadsTwo(tasks: seq<Task>, completions: seq<Completion>, s: Session, day: int)
    requires InDayWindow(s.timestamp, day)
    ensures StatsAsWritten(DayStats(Logs([s], tasks, completions), day), s).sessions == 2
    ensures GoalReached(StatsAsWritten(DayStats(Logs([s], tasks, completions), day), s).sessions, 2)
  {
    RecountCountsOnce(Logs([], tasks, completions), s, day);
    assert Appended(Logs([], tasks, completions), s) == Logs([s], tasks, completions);
  }

  /** The daily-goal toast: the count equals the goal exactly. */
  predicate GoalReached(count: int, goal: int)
  {
    count == goal
  }

  /**
    * With the recount alone, the count the page shows is the number of
    * sessions logged today, so the toast fires at the goal-th session and
    * at no other.
    */
  lemma GoalToastAtGoal(logs: Logs, s: Session, day: int, goal: int)
    requires InDayWindow(s.timestamp, day)
    ensures GoalReached(DayStats(Appended(logs, s), day).sessions, goal)
            <==> DayStats(logs, day).sessions + 1 == goal
  {
    RecountCountsOnce(logs, s, day);
  }

  /** Why the sign-up prompt opened. */
  datatype AuthTrigger = SessionsTrigger | DevicesTrigger | EndOfDayTrigger | SettingsTrigger | TasksTrigger

  // ---------------------------------------------------------------------
  // Crediting a task from the page
  // ---------------------------------------------------------------------

  /**
    * The stored list after `handleTaskSessionComplete(id)` at `now`: the
    * sessions of every task with the id go up, and the first of them is
    * completed through `updateTaskAfterCompletion` once its estimate is
    * reached.
    */
  function PageCredited(tasks: seq<Task>, id: string, now: int): seq<Task>
  {
    var bumped := Bumped(tasks, id);
    if IndexOf(tasks, id).Some? && EstimateReached(bumped[IndexOf(tasks, id).value]) then AfterCompletion(bumped, id, now)
    else bumped
  }

  /** Only the tasks with that id change. */
  lemma PageCreditedFrame(tasks: seq<Task>, id: string, now: int)
    ensures |PageCredited(tasks, id, now)| == |tasks|
    ensures forall i :: 0 <= i < |tasks| && tasks[i].id != id ==> PageCredited(tasks, id, now)[i] == tasks[i]
  {
    AfterCompletionFrame(Bumped(tasks, id), id, now);
  }

  /**
    * Below its estimate the task gains exactly one session; a plain task
    * that reaches its estimate is completed at `now` and ends two sessions
    * above where it started.
    */
  lemma PageCreditedMeaning(tasks: seq<Task>, id: string, now: int)
    requires IndexOf(tasks, id).Some?
    ensures var i := IndexOf(tasks, id).value;
      var t := tasks[i];
      var u := PageCredited(tasks, id, now)[i];
      (!EstimateReached(t.(sessionsCompleted := t.sessionsCompleted + 1)) ==>
         u == t.(sessionsCompleted := t.sessionsCompleted + 1))
      && (EstimateReached(t.(sessionsCompleted := t.sessionsCompleted + 1)) && !SpacedOn(t) && !RecurringOn(t) ==>
         u.sessionsCompleted == t.sessionsCompleted + 2 && u.completed && u.completedAt == Some(now))
  {
    var i := IndexOf(tasks, id).value;
    var t := tasks[i];
    var bumped := Bumped(tasks, id);
    assert bumped[i] == t.(sessionsCompleted := t.sessionsCompleted + 1);
    IndexOfSameIds(tasks, bumped, id);
    var r := PageCredited(tasks, id, now);
    if EstimateReached(bumped[i]) {
      assert r == AfterCompletion(bumped, id, now);
      if !SpacedOn(t) && !RecurringOn(t) {
        PlainCompletion(bumped[i], now);
        assert r[i] == CompletedTask(bumped[i], now).value;
      }
    }
  }

  // ---------------------------------------------------------------------
  // The page
  // ---------------------------------------------------------------------

  /** The page's state; `signedIn` stands for the signed-in user. */
  class Page {
    const store: Store.LocalStore
    var signedIn: bool
    var showAuthPrompt: bool
    var authPromptTrigger: AuthTrigger
    var sessionsCompleted: int
    var isDarkMode: bool
    var hasUnsavedSettings: bool
    var dailyGoal: int
    var selectedTaskId: Option<string>
    var isTimerActive: bool

    constructor (s: Store.LocalStore, user: bool)
      ensures store == s && signedIn == user && !showAuthPrompt && authPromptTrigger == SessionsTrigger
      ensures sessionsCompleted == 0 && !isDarkMode && !hasUnsavedSettings && dailyGoal == 8
      ensures selectedTaskId.None? && !isTimerActive
    {
      store := s;
      signedIn := user;
      showAuthPrompt := false;
      authPromptTrigger := SessionsTrigger;
      sessionsCompleted := 0;
      isDarkMode := false;
      hasUnsavedSettings := false;
      dailyGoal := 8;
      selectedTaskId := None;
      isTimerActive := false;
    }

    /**
      * The mount effect at `now`: the per-day task counters are reset once a
      * day (when the recorded reset day is not today, which is then
      * recorded), and the count, goal and theme are loaded.
      */
    method Mount(now: int)
      modifies this, store
      ensures store.OnlyChangedAmong({Store.TasksKey, Store.LastResetKey})
      ensures old(store.lastDailyReset) != Some(DayOf(now)) ==>
        store.tasks == ResetDaily(old(store.tasks), DayOf(now)) && store.lastDailyReset == Some(DayOf(now))
      ensures old(store.lastDailyReset) == Some(DayOf(now)) ==>
        store.tasks == old(store.tasks) && store.lastDailyReset == old(store.lastDailyReset)
      ensures sessionsCompleted == DayStats(store.Logs(), DayOf(now)).sessions
      ensures isDarkMode == store.GetSettings().darkMode && dailyGoal == store.GetSettings().dailySessionGoal
      ensures signedIn == old(signedIn) && showAuthPrompt == old(showAuthPrompt)
    {
      var today := DayOf(now);
      ResetIfNewDay(today);
      var stats := store.GetTodaysStats(today);
      sessionsCompleted := stats.sessions;
      var settings := store.GetSettings();
      isDarkMode := settings.darkMode;
      dailyGoal := settings.dailySessionGoal;
    }

    /** The mount's daily reset: the per-day counters restart once per calendar day. */
    method ResetIfNewDay(today: int)
      modifies store
      ensures store.OnlyChangedAmong({Store.TasksKey, Store.LastResetKey})
      ensures old(store.lastDailyReset) != Some(today) ==>
        store.tasks == ResetDaily(old(store.tasks), today) && store.lastDailyReset == Some(today)
      ensures old(store.lastDailyReset) == Some(today) ==>
        store.tasks == old(store.tasks) && store.lastDailyReset == old(store.lastDailyReset)
    {
      if store.lastDailyReset != Some(today) {
        store.ResetAllDailySessions(today);
        store.SetLastDailyReset(today);
      }
    }

    /** The `settingsUpdated` listener. */
    method OnSettingsUpdated(s: Settings)
      modifies this
      ensures isDarkMode == s.darkMode && dailyGoal == s.dailySessionGoal && !hasUnsavedSettings
      ensures sessionsCompleted == old(sessionsCompleted) && showAuthPrompt == old(showAuthPrompt)
    {
      isDarkMode := s.darkMode;
      dailyGoal := s.dailySessionGoal;
      hasUnsavedSettings := false;
    }

    /** The `settingsChanged` listener. */
    method OnSettingsChanged()
      modifies this
      ensures hasUnsavedSettings && dailyGoal == old(dailyGoal) && isDarkMode == old(isDarkMode)
    {
      hasUnsavedSettings := true;
    }

    /**
      * `handleSessionComplete(session)` at `now`, with `chance` for the
      * random draw: the session goes to today's log and the all-sessions
      * log, today's record is recounted and the session added to it once
      * more (`StatsAsWritten`), that record is saved and its count shown,
      * the goal toast fires when the count equals the goal, and without a
      * signed-in user the prompt opens when it reads 3 (or, from 5 on, when
      * the draw is below 0.3).  The recount already holds the session, so
      * the count runs one ahead (`SessionCountedTwice`; `RecountCountsOnce`
      * is the corrected count).
      */
    method HandleSessionComplete(session: Session, now: int, chance: real) returns (goalToast: bool)
      modifies this, store
      ensures store.OnlyChangedAmong({Store.TodaySessionsKey, Store.AllSessionsKey, Store.DailyStatsKey})
      ensures store.todaySessions == old(store.todaySessions) + [session]
      ensures store.allSessions == old(store.allSessions) + [session]
      ensures sessionsCompleted == StatsAsWritten(DayStats(store.Logs(), DayOf(now)), session).sessions
      ensures store.dailyStats == Store.SavedDailyStats(old(store.dailyStats),
                StatsAsWritten(DayStats(store.Logs(), DayOf(now)), session), DayOf(now))
      ensures goalToast <==> GoalReached(sessionsCompleted, dailyGoal)
      ensures dailyGoal == old(dailyGoal) && signedIn == old(signedIn)
      ensures signedIn ==> showAuthPrompt == old(showAuthPrompt) && authPromptTrigger == old(authPromptTrigger)
      ensures !signedIn && sessionsCompleted == 3 ==> showAuthPrompt && authPromptTrigger == SessionsTrigger
      ensures !signedIn && sessionsCompleted != 3 && sessionsCompleted >= 5 && chance < 0.3 ==>
        showAuthPrompt && authPromptTrigger == EndOfDayTrigger
      ensures !signedIn && sessionsCompleted != 3 && !(sessionsCompleted >= 5 && chance < 0.3) ==>
        showAuthPrompt == old(showAuthPrompt) && authPromptTrigger == old(authPromptTrigger)
    {
      var updatedStats := RecordSession(session, now);
      sessionsCompleted := updatedStats.sessions;
      goalToast := updatedStats.sessions == dailyGoal;
      PromptSignIn(chance);
    }

    /**
      * The sign-in prompt after a session, without a signed-in user: at the
      * third session of the day, or from the fifth on when the draw is
      * below 0.3.
      */
    method PromptSignIn(chance: real)
      modifies this
      ensures signedIn ==> showAuthPrompt == old(showAuthPrompt) && authPromptTrigger == old(authPromptTrigger)
      ensures !signedIn && sessionsCompleted == 3 ==> showAuthPrompt && authPromptTrigger == SessionsTrigger
      ensures !signedIn && sessionsCompleted != 3 && sessionsCompleted >= 5 && chance < 0.3 ==>
        showAuthPrompt && authPromptTrigger == EndOfDayTrigger
      ensures !signedIn && sessionsCompleted != 3 && !(sessionsCompleted >= 5 && chance < 0.3) ==>
        showAuthPrompt == old(showAuthPrompt) && authPromptTrigger == old(authPromptTrigger)
      ensures sessionsCompleted == old(sessionsCompleted) && dailyGoal == old(dailyGoal) && signedIn == old(signedIn)
    {
      if !signedIn {
        if sessionsCompleted == 3 {
          authPromptTrigger := SessionsTrigger;
          showAuthPrompt := true;
        } else if sessionsCompleted >= 5 && chance < 0.3 {
          authPromptTrigger := EndOfDayTrigger;
          showAuthPrompt := true;
        }
      }
    }

    /**
      * The storage half of `handleSessionComplete`: the session is logged,
      * today's record is recounted, the session is added to it once more,
      * and that record is saved and returned.
      */
    method RecordSession(session: Session, now: int) returns (updatedStats: DailyStats)
      modifies store
      ensures store.OnlyChangedAmong({Store.TodaySessionsKey, Store.AllSessionsKey, Store.DailyStatsKey})
      ensures store.todaySessions == old(store.todaySessions) + [session]
      ensures store.allSessions == old(store.allSessions) + [session]
      ensures updatedStats == StatsAsWritten(DayStats(store.Logs(), DayOf(now)), session)
      ensures store.dailyStats == Store.SavedDailyStats(old(store.dailyStats), updatedStats, DayOf(now))
    {
      var today := DayOf(now);
      var currentSessions := store.todaySessions;
      store.SaveTodaysSessions(currentSessions + [session]);
      store.AddSession(session);
      var currentStats := store.GetTodaysStats(today);
      updatedStats := StatsAsWritten(currentStats, session);
      store.SaveDailyStats(updatedStats, today);
    }

    /** `handleStartFocusSession(id)`. */
    method HandleStartFocusSession(taskId: string)
      modifies this
      ensures selectedTaskId == Some(taskId) && isTimerActive
      ensures sessionsCompleted == old(sessionsCompleted) && dailyGoal == old(dailyGoal)
    {
      selectedTaskId := Some(taskId);
      isTimerActive := true;
    }

    /** `handleTaskSessionComplete(id)` at `now`: only the stored task list changes. */
    method HandleTaskSessionComplete(taskId: string, now: int)
      modifies store
      ensures store.tasks == PageCredited(old(store.tasks), taskId, now) && store.OnlyChanged(Store.TasksKey)
    {
      var tasks := store.tasks;
      var updatedTasks := Bumped(tasks, taskId);
      store.SaveTasks(updatedTasks);
      IndexOfSameIds(tasks, updatedTasks, taskId);
      var index := IndexOf(updatedTasks, taskId);
      if index.Some? && EstimateReached(updatedTasks[index.value]) {
        store.UpdateTaskAfterCompletion(taskId, now);
      }
    }
  }
}
