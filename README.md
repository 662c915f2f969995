# Pomodoro timer, tasks and statistics — a Dafny model

This project models the domain layer of a browser Pomodoro app: the focus/break
timer, the task list with spaced-repetition and recurring tasks, break reminders,
and the statistics built from the session log. All of the app's state lives in
browser storage.

What is modelled:

- **Storage.** `LocalStorage` becomes a `Store.LocalStore` object with one field
  per storage key. It covers the settings merge, the daily-statistics upsert
  with its 90-day cut, the completion log with its 30-day retention, categories
  merged by name (with the letters A to Z folded to lower case), and per-task
  daily counters.
- **Task scheduler.** The `Scheduler` module models once-a-day eligibility, the
  completion update (interval growth by difficulty, the next recurrence date,
  terminal completion of plain tasks) and the day-stepping calendar rule of
  every recurrence pattern.
- **Break reminders.** The `Reminders`, `ReminderManager` and `BreakDisplay`
  modules model the showing rule and its frequency, the `lastShown` stamps, the
  reminder list's create, edit, delete and toggle operations, and the set of
  reminders ticked off during a break.
- **Statistics.** The `Stats`, `Rollups`, `Engine` and `StatsDisplay` modules
  model the daily, weekly and monthly folds, the streak, the task,
  spaced-repetition, break-reminder and Pomodoro rollups, the derived metrics,
  and the chart and calendar shaping.
- **Timer.** `Timer.TimerContainer` is a class whose fields are the component's
  state and whose methods are its handlers and effects. It covers start,
  pause, stop, reset, change of type, tick, session completion and the
  long-break cadence.
- **Components.** The page (`Home`), the task manager (`TaskList`), the
  task-selection hook (`TaskSelection`), the settings panel (`SettingsForm`),
  the timer display (`Display`) and the day selector (`DaySelector`) are
  modelled as classes over the store, or as functions where the component only
  computes.

Modelling choices:

- Timestamps are integer milliseconds.
- Local time is taken to be UTC, so a calendar day is `t / 86400000` and day 0
  is a Thursday.
- Calendar dates go through `Calendar.DaysFromCivil` and
  `Calendar.CivilFromDays`.
- Percentages and averages are `real`s.
- Ids, random draws and the current time are parameters.

## Model

| member | source | states |
|---|---|---|
| Calendar.DayOfBounds | lib/storage.ts:306-308 | every timestamp lies in the window of its own calendar day and is that day's midnight plus a time of day in [0, 86400000) |
| Calendar.InDayWindowIff | lib/storage.ts:543-544 | a timestamp is inside a day's window [midnight, midnight + 86400000 − 1] exactly when that day is its calendar day (both directions) |
| Calendar.WeekdayRange | lib/storage.ts:310-315 | `getDay()` is always in 0..6 |
| Calendar.WeekdayShift | lib/storage.ts:310-322 | moving n days moves the weekday n places round the week, so the week start `getDate() − getDay()` is a Sunday |
| Calendar.AddDaysDay | lib/storage.ts:678-680 | `setDate(getDate() + n)` lands on the calendar day n later and keeps the time of day |
| Calendar.DaysInMonth | lib/storage.ts:710-712 | a month has 28 to 31 days, and 29 exactly for February of a leap year |
| Calendar.MonthLength | lib/storage.ts:710-712 | `new Date(year, month, 0).getDate()`: the distance between the first of a month and the first of the next is that month's length |
| Calendar.DaysFromCivilLinear | lib/storage.ts:719-721 | `new Date(year, month − 1, i)` is i − 1 days after the first of the month, also past the month's end (roll-over) |
| Display.JsRem | components/timer/timer-display.tsx:126 | JavaScript `%`: the Euclidean remainder for a non-negative dividend, a remainder in (−b, 0] for a negative one |
| Display.FormatTime | components/timer/timer-display.tsx:124-128 | for a non-negative count the clock is the two-digit minutes, a colon and the two-digit seconds |
| Display.FormatTimeReadsBack | components/timer/timer-display.tsx:124-128 | the clock text reads back as the count: minutes before the colon, seconds after, five characters below 100 minutes |
| Display.ProgressPercentage | components/timer/timer-display.tsx:131 | progress is 0 for a zero-length session, 0 at the start, 100 at zero and within [0, 100] in between |
| Display.ProgressGrowsWithTicks | components/timer/timer-display.tsx:131 | a tick of the timer never moves the progress ring backwards |
| Display.SessionLabel | components/timer/timer-display.tsx:178-189 | each session kind has its own label, "Focus", "Short Break" or "Long Break" (both directions) |
| Display.DurationLabel | components/timer/timer-display.tsx:191-202 | the duration label ends with " min" |
| Display.DurationLabelReadsBack | components/timer/timer-display.tsx:191-202 | the digits before " min" are the configured minutes of the session kind |
| Display.AudioDecisionRule | components/timer/timer-display.tsx:92-122 | at zero volume the audio effect does nothing; a running timer resumes paused audio or starts the kind's own track, and never pauses or stops; a paused timer pauses; an idle one stops everything |
| Display.Primary | components/timer/timer-display.tsx:497-537 | the Start button shows exactly when the timer is not active, Resume exactly when it is active and paused, and the Stop button exactly beside Resume or Pause |
| Display.CleanupFollowsEffect | components/timer/timer-display.tsx:92-122 | the cleanup stops audio only after a run of the effect that paused or stopped it, and follows every run that stopped everything |
| Display.PrimaryButtonToggles | components/timer/timer-display.tsx:497-525 | pressing the primary button toggles running and not running and never moves the clock or changes the session |
| Timer.ConfiguredSeconds | components/timer/timer-container.tsx:81-97 | a session's length in seconds is its kind's configured minutes times 60 |
| Timer.CountdownReachesZero | components/timer/timer-container.tsx:107-121 | a running countdown loses exactly one second per tick until zero, where it stays with its session due for completion |
| Timer.CompletedRestarting | components/timer/timer-container.tsx:208-221 | corrected completion: the next session always starts on a full clock of its own kind |
| Timer.CompletionOutcome | components/timer/timer-container.tsx:208-245 | after a completion the timer stays active exactly when the settings auto-start the next kind; otherwise idle and unpaused on a full clock; work leads to a long break exactly on the cadence, a break to the next work session with the ordinal raised by one; the session id is cleared |
| Timer.AutoStartStallsAtZero | components/timer/timer-container.tsx:71-121 | as written, an auto-started session begins at zero seconds and no number of ticks moves it |
| Timer.TicksAtZero | components/timer/timer-container.tsx:107-113 | ticks leave a clock at zero where it is |
| Timer.RestartedSessionCountsDown | components/timer/timer-container.tsx:107-113 | with the correction, an auto-started session counts down from its configured length, one second per tick |
| Timer.WorkBreakCycle | components/timer/timer-container.tsx:208-273 | without auto-start, a completed work session, its break started and run down, and the break completed leave an idle next work session with a full work clock |
| Timer.PauseResumeKeepsClock | components/timer/timer-container.tsx:257-278 | any number of pause/resume cycles never moves the clock or changes the session, and the timer is running afterwards |
| Timer.LongBreaksCounted | components/timer/timer-container.tsx:235-238 | among m consecutive work sessions the number followed by a long break is the count of multiples of the cycle length in that range |
| Timer.OneLongBreakPerCycle | components/timer/timer-container.tsx:235-238 | any cycle-length run of consecutive work sessions has exactly one long break |
| Timer.EmittedSession | components/timer/timer-container.tsx:157-167 | the emitted record carries the session id or a fresh one, the kind, the whole minutes, `completed`, the time, the task id only when set, and the reminder lists only after a break with a non-empty list |
| Timer.CreditedTask | components/timer/timer-container.tsx:171-174 | a task is credited exactly after a work session with a current task, and it is that task |
| Timer.RemindersFireOncePerBreak | components/timer/timer-container.tsx:135-154 | the reminder notifications fire on the first run of the effect in an active break, for that break's kind, and never again while the same break is on |
| Timer.TimerContainer.constructor | components/timer/timer-container.tsx:18-33 | an idle 25-minute first work session of a 4-session cycle, with the stored settings and nothing selected |
| Timer.TimerContainer.SyncDuration | components/timer/timer-container.tsx:71-103 | the duration-sync effect: an idle clock is set to the configured length of its kind; the cycle length follows the settings |
| Timer.TimerContainer.SettleAfter | components/timer/timer-container.tsx:71-103 | the sync effect runs after a handler that changed the kind or the active flag |
| Timer.TimerContainer.LoadSettings | components/timer/timer-container.tsx:72-79 | on mount the stored settings are loaded and the clock synced to them |
| Timer.TimerContainer.OnSettingsUpdated | components/timer/timer-container.tsx:37-46 | new settings replace the old ones and re-sync the clock exactly when a duration or the cycle length changed |
| Timer.TimerContainer.SelectTask | components/timer/timer-container.tsx:124-133 | the current task is set exactly when a non-empty selected id names a stored task |
| Timer.TimerContainer.HandleStart | components/timer/timer-container.tsx:257-273 | active and unpaused; a session id is assigned only when none is set |
| Timer.TimerContainer.HandlePause | components/timer/timer-container.tsx:275-278 | only the paused flag changes |
| Timer.TimerContainer.HandleStop | components/timer/timer-container.tsx:280-304 | idle and unpaused with a full clock of the current kind; kind, ordinal and id kept |
| Timer.TimerContainer.HandleReset | components/timer/timer-container.tsx:306-316 | an idle first work session with a full work clock |
| Timer.ResetSettlesIdle | components/timer/timer-container.tsx:306-316 | whether or not the duration sync runs after a reset, the clock ends idle, unpaused, on the first work session with a full work clock |
| Timer.TimerContainer.HandleSessionTypeChange | components/timer/timer-container.tsx:247-255 | the kind changes and a running timer is stopped first |
| Timer.TimerContainer.HandleRemindersCompleted | components/timer/timer-container.tsx:223-226 | the completed and shown reminder ids are recorded and nothing else changes |
| Timer.TimerContainer.HandleCloseBreakReminders | components/timer/timer-container.tsx:228-230 | the reminder panel is hidden and nothing else changes |
| Timer.TimerContainer.StartNextSession | components/timer/timer-container.tsx:232-245 | the clock moves to the next session kind and ordinal, with the id cleared |
| Timer.TimerContainer.HandleSessionComplete | components/timer/timer-container.tsx:156-221 | emits the session record, names the task to credit, and moves on to the next session as `Completed` says: idle on a full clock without auto-start, still active on the finished clock (at zero) with it |
| Timer.TimerContainer.TickEffect | components/timer/timer-container.tsx:106-121 | a running clock above zero loses a second; an active clock at zero completes its session as written (`Completed`, so an auto-started session sits at zero); otherwise nothing changes |
| Timer.TimerContainer.BreakReminderEffect | components/timer/timer-container.tsx:135-154 | the panel, the fired notifications, the once-per-break marker and the clearing of stored completions follow `ReminderEffect` |
| Home.RecountCountsOnce | lib/storage.ts:528-624 | recounting a day after logging one of its sessions counts it once: one more session, its minutes added for work, one more streak entry for completed work, the rest unchanged |
| Home.SessionCountedTwice | app/page.tsx:167-176 | as written the page adds the new session on top of a recount that already holds it: two more sessions than before (twice the minutes for work), one more than the log holds |
| Home.FirstSessionReadsTwo | app/page.tsx:167-184 | as written the first session of a day reads as two, so a goal of two fires its toast after one session |
| Home.GoalToastAtGoal | app/page.tsx:178-184 | with the recount alone the toast fires exactly when the new session is the goal-th of the day |
| Home.PageCreditedFrame | app/page.tsx:215-240 | crediting a task session changes only the tasks with that id and keeps the list's length |
| Home.PageCreditedMeaning | app/page.tsx:215-240 | below its estimate the task gains exactly one session; a plain task that reaches its estimate is completed at that time and ends two sessions above where it started |
| Home.Page.constructor | app/page.tsx:26-36 | the initial page state: no prompt, no sessions, light theme, no unsaved settings, a goal of 8, nothing selected |
| Home.Page.Mount | app/page.tsx:40-62 | the per-day task counters are reset once a day and the day recorded; the count, goal and theme are loaded from storage |
| Home.Page.ResetIfNewDay | app/page.tsx:41-48 | the per-day task counters are reset and the day recorded exactly when the recorded day is not today; otherwise storage is left as it was |
| Home.Page.OnSettingsUpdated | app/page.tsx:66-72 | theme and goal follow the new settings and the unsaved flag is cleared |
| Home.Page.OnSettingsChanged | app/page.tsx:74-76 | the unsaved flag is set and nothing else changes |
| Home.Page.HandleSessionComplete | app/page.tsx:157-199 | as written: the session is appended to both logs; the record saved and the count shown are the recount of the day with the session added once more (`StatsAsWritten`); the goal toast fires exactly when that count equals the goal; without a user the sign-up prompt opens when it reads 3, or from 5 on with a draw below 0.3 |
| Home.Page.RecordSession | app/page.tsx:158-175 | the session is appended to today's and to the full log; the record returned and saved is the recount of today over the new logs with the session added once more: one more session, its minutes and one more streak entry for work |
| Home.Page.PromptSignIn | app/page.tsx:190-198 | without a user the prompt opens at exactly 3 sessions (the sessions trigger) or from 5 on with a draw below 0.3 (the end-of-day trigger), and otherwise nothing changes |
| Home.Page.HandleStartFocusSession | app/page.tsx:201-213 | the task is selected and the timer marked active |
| Home.Page.HandleTaskSessionComplete | app/page.tsx:215-240 | only the stored task list changes, to the credited list |
| Store.SafeJsonParse | lib/storage.ts:293-304 | the decoded value when the key holds readable JSON, the default otherwise |
| Store.ReadSettingsCases | lib/storage.ts:502-507 | nothing stored reads as the defaults, a record saved in full reads back as itself, and a field stored alone overrides only that field |
| Store.DateIndex | lib/storage.ts:633-636 | `findIndex` on the date: none exactly when no record has the date, otherwise the first record with it |
| Store.SaveDailyStatsReadBack | lib/storage.ts:631-651 | after saving a day's record, that day reads back as the record (within the last 90 days), every other recent day as before, and nothing older than 90 days remains |
| Store.LoggedCompletionMeaning | lib/storage.ts:829-840 | the new completion is kept last unless older than 30 days; old entries are pruned to the last 30 days in order; nothing older survives |
| Store.AllCategories | lib/storage.ts:1729-1742 | the merge loop computes the defaults followed by each stored category whose name, with A to Z lower-cased, is not yet present |
| Store.MergeByNameMeaning | lib/storage.ts:1637-1650 | the merged list starts with the defaults, adds only stored categories, represents every stored name and never repeats a name when the defaults do not |
| Store.MergeByNameExtends | lib/storage.ts:1642-1647 | merging keeps the list it starts from as a prefix and only appends stored categories after it |
| Store.MergeByNameCovers | lib/storage.ts:1642-1647 | every stored name and every starting name is represented in the merged list |
| Store.MergeByNameDistinct | lib/storage.ts:1642-1647 | a starting list without a repeated name yields a merged list without a repeated name |
| Store.DefaultCategories | lib/storage.ts:1719-1727 | the built-in categories carry the built-in names, in order, with the given ids |
| Store.DefaultNamesDistinct | lib/storage.ts:1627-1635 | the built-in task and reminder category names differ even with A to Z lower-cased |
| Store.WithoutCategoryMeaning | lib/storage.ts:890-894 | deleting a category removes every one with that id and keeps the rest; an absent id changes nothing |
| Store.LocalStore.constructor | lib/storage.ts:324-330 | an empty store: every key absent |
| Store.LocalStore.SaveSettings | lib/storage.ts:509-525 | the whole record is written, only the settings key changes, and it reads back as the record saved |
| Store.LocalStore.SaveTodaysSessions | lib/storage.ts:332-335 | today's session list is replaced and nothing else changes |
| Store.LocalStore.AddSession | lib/storage.ts:349-353 | the session is appended to the all-sessions log and nothing else changes |
| Store.LocalStore.SaveTasks | lib/storage.ts:372-375 | the task list is replaced and nothing else changes |
| Store.LocalStore.SaveBreakReminders | lib/storage.ts:781-784 | the reminder list is replaced and nothing else changes |
| Store.LocalStore.SaveDailyStats | lib/storage.ts:631-651 | the day's record overwrites the first of its date or is appended, then records older than 90 days are dropped; nothing else changes |
| Store.LocalStore.AddBreakReminderCompletion | lib/storage.ts:829-840 | the completion is appended and the log pruned to 30 days; nothing else changes |
| Store.LocalStore.AddTaskCategory | lib/storage.ts:884-888 | the category is appended and nothing else changes |
| Store.LocalStore.DeleteTaskCategory | lib/storage.ts:890-894 | every category with the id is removed and nothing else changes |
| Store.LocalStore.AddBreakReminderCategory | lib/storage.ts:805-809 | the category is appended and nothing else changes |
| Store.LocalStore.DeleteBreakReminderCategory | lib/storage.ts:811-815 | every category with the id is removed and nothing else changes |
| Store.LocalStore.UpdateTaskAfterCompletion | lib/storage.ts:440-499 | the stored list becomes `AfterCompletion` of the old one: the session counted, then a spaced task reviewed, a recurring one advanced or a plain one completed |
| Store.CompleteTask | lib/storage.ts:446-496 | the per-task update gives the task `CompletedTask` describes: none when a same-day guard refuses, otherwise the counted, reviewed, advanced or completed task |
| Scheduler.CalculationIgnoresLastCompleted | lib/storage.ts:482-486 | stamping `lastCompleted` before the calculation does not change the next due date or the days-after count |
| Store.LocalStore.IncrementDailySession | lib/storage.ts:1416-1437 | the task's per-day counter for today goes up by one; only the task list changes |
| Store.LocalStore.ResetAllDailySessions | lib/storage.ts:1439-1451 | the per-day counters are reset for today; only the task list changes |
| Store.LocalStore.SetLastDailyReset | app/page.tsx:45-47 | the last-reset day is recorded and nothing else changes |
| Store.LocalStore.SaveCurrentBreakCompleted | components/timer/break-reminder-display.tsx:105-106 | the ticked ids of the current break are stored and nothing else changes |
| Store.LocalStore.GetTodaysStats | lib/storage.ts:654-657 | today's record is recomputed from the logs |
| Stats.GetDailyStats | lib/storage.ts:528-623 | the day's record: its sessions by kind, the focus minutes of its work sessions, the reminders shown, the tasks completed, reviewed or recurred that day, its reminder completions, and the streak loop over the completed work sessions |
| Stats.KindPartition | lib/storage.ts:581-584 | every session is exactly one of work, short break and long break |
| Stats.CompletedWorkBound | lib/storage.ts:596-599 | the completed work sessions are among the work sessions |
| Stats.DayStatsPartition | lib/storage.ts:528-623 | the day's sessions split into work, short and long breaks; the streak never exceeds the work sessions; each task counts at most once |
| Stats.SessionCountedOnItsDay | lib/storage.ts:543-549 | a session is counted on exactly one day, the calendar day of its timestamp (both directions) |
| Stats.GetWeeklyStats | lib/storage.ts:664-706 | the seven days from the week's Sunday, their totals, the average and the best day |
| Stats.ScanDays | lib/storage.ts:677-692 | the day loop: the records of n consecutive days, their running totals and the first day with strictly the most sessions |
| Stats.DaysFromStep | lib/storage.ts:677-683 | appending the next day's record keeps a run of consecutive days |
| Stats.DaysFromAt | lib/storage.ts:677-683 | entry j of a run of days from `start` is the record of day `start + j` |
| Stats.TotalsStep | lib/storage.ts:685-687 | adding a day adds its sessions, minutes and tasks to the running totals |
| Stats.BestStep | lib/storage.ts:689-692 | the best day moves only to a day with strictly more sessions |
| Stats.BestFold | lib/storage.ts:689-692 | the scan's best index and count are those of the fold over all scanned days |
| Stats.BestIndexIsBest | lib/storage.ts:689-692 | the scan settles on the earliest day with strictly the most sessions, or the first day when none has any |
| Stats.BestSoFarIsBest | lib/storage.ts:689-692 | the loop state of the best-day search names a best day |
| Stats.GetMonthlyStats | lib/storage.ts:709-761 | one record per day of the month, their totals and best day, and the weeks holding days 1, 8, 15, … |
| Stats.WeeksOf | lib/storage.ts:741-746 | the week loop: `ceil(days / 7)` weeks, entry k the week holding day `1 + 7k` of the month |
| Stats.WeeksFromStep | lib/storage.ts:741-746 | appending the week of the next start day keeps the run of weeks |
| Stats.WeeksFromAt | lib/storage.ts:741-746 | entry k of the weekly breakdown is the week holding day `start + 7k` |
| Stats.WeeksInMonth | lib/storage.ts:741 | a month has 4 or 5 weekly entries, and 4 exactly when it has 28 days |
| Stats.ConsecutiveActiveDaysStreak | lib/storage.ts:1171-1217 | the streak counts active stored days back from today (or from yesterday when today has no session) on the records sorted newest first, stopping after 366 |
| Stats.RunBackMeaning | lib/storage.ts:1201-1214 | the streak is at most the limit, every day it covers is active, and below the limit the day before it is not active |
| Rollups.Percent | lib/storage.ts:933 | a share of a positive whole as a percentage in [0, 100] for a part within the whole, and 0 when there is nothing to divide by |
| Rollups.Average | lib/storage.ts:937 | the average is 0 for no items and non-negative for a non-negative total |
| Rollups.AverageTimesCount | lib/storage.ts:937 | the average times the count gives back the total |
| Rollups.GetTaskStats | lib/storage.ts:905-996 | the total is the list's length; completed = the tasks the completed filter keeps (`CountsAsCompletedIff`), active = the uncompleted unarchived tasks; the rate is completed over total as a percentage in [0, 100]; the average sessions per task; the category and priority tallies; one entry per stored day counting the tasks finished and created on it; the recurring and reviewed counts |
| Rollups.CountsAsCompletedIff | lib/storage.ts:913-928 | for a task not both recurring and spaced, the completed filter counts it exactly when it is completed, or was completed or reviewed today |
| Rollups.ActiveAndCompletedDisjoint | lib/storage.ts:930 | active tasks and completed-flag tasks never overlap |
| Rollups.CompletedFlagCounted | lib/storage.ts:913-928 | every completed task is among those the completed filter counts |
| Rollups.TasksByCategoryTally | lib/storage.ts:940-945 | the category tally has a key for each task's category (or "Uncategorized") and no other, and each counts the tasks that carry it |
| Rollups.TasksByPriorityTally | lib/storage.ts:947-952 | the priority tally has a key for each task's priority (or "None") and no other, and each counts the tasks that carry it |
| Rollups.TallyCounts | lib/storage.ts:940-952 | a tally built by `(m[k] \|\| 0) + 1` holds every key that occurs, and each key's count is the number of items with that key (at least one) |
| Rollups.ReviewStreak | lib/storage.ts:1016-1026 | the streak loop counts the leading distinct review days that are today, yesterday, … in turn |
| Rollups.LeadingRunMeaning | lib/storage.ts:1006-1026 | on distinct review days, newest first and none after today, the streak is the number of consecutive days ending today that all have a review; the day before the run has none |
| Rollups.Upcoming | lib/storage.ts:1030-1040 | the upcoming reviews are ordered earliest first |
| Rollups.UpcomingMembers | lib/storage.ts:1030-1040 | the upcoming list holds exactly the items of the spaced tasks due within seven days |
| Rollups.DifficultyTally | lib/storage.ts:1043-1047 | the difficulty tally holds each difficulty that occurs, with the number of spaced tasks that have it |
| Rollups.GetSpacedRepetitionStats | lib/storage.ts:998-1072 | the count and total reviews of enabled spaced tasks, the review streak, the reviews due within a week, the difficulty tally, the retention rate, which is the percentage of those tasks reviewed more than once and lies in [0, 100], and the average interval |
| Rollups.ReviewDaysDescending | lib/storage.ts:1006-1014 | the distinct review days, newest first, are strictly descending and none lies after today |
| Rollups.ShownIdsLength | lib/storage.ts:1088-1090 | the reminder ids listed as shown number exactly the sum of the per-session shown counts |
| Rollups.FindReminder | lib/storage.ts:1103-1104 | `find` by id: a found reminder has the id; none is found exactly when no reminder has it |
| Rollups.GetBreakReminderStats | lib/storage.ts:1074-1169 | shown reminders are the ids listed by the sessions in range, completed ones the completions in range; the rate is their percentage, 0 when nothing was shown; the category tally is the tally of the in-range ids and completions (whose meaning `ReminderTallyMeaning` states); one entry per stored day holding that day's in-range shown and completed counts, each within the totals; the average is completions per break session in range |
| Rollups.ReminderTallyMeaning | lib/storage.ts:1097-1125 | each shown id and each completion whose reminder exists is tallied under that reminder's category, and every category in the tally has at least one of them |
| Rollups.NoRangeReadsAll | lib/storage.ts:1079-1086 | a range covering every entry reads the same sessions and completions as no range |
| Rollups.MaxSessions | lib/storage.ts:1236-1237 | `Math.max(..., 0)`: non-negative, at least every stored day's count, and one of them when positive |
| Rollups.GetPomodoroStats | lib/storage.ts:1219-1256 | the total over the whole log and its work, short-break and long-break counts (which add up to it), the focus minutes and average length, the consecutive-day streak, the largest stored day's count (at least every day's, and attained unless 0), and today's and this week's counts recomputed from the logs |
| Scheduler.CanCompleteSpacedWindow | lib/storage.ts:402-419 | a spaced-repetition task is eligible when the mode is off or it was never reviewed, and otherwise exactly when its last review lies outside today's 00:00:00.000–23:59:59.999 window |
| Scheduler.CanCompleteRecurringWindow | lib/storage.ts:421-438 | a recurring task is eligible when the mode is off or it was never completed, and otherwise exactly when its last completion lies outside today's window |
| Scheduler.GrowInterval | lib/storage.ts:464-468 | the new interval is the ceiling of the old one times 2.5 (easy) or 1.3 (medium), stated as integer bounds; a hard task keeps its interval |
| Scheduler.IntervalGrowth | lib/storage.ts:464-468 | the review interval never shrinks, and for easy and medium tasks with a positive interval it grows strictly |
| Scheduler.CalculateNextRecurringDate | lib/storage.ts:1864-1930 | the day-stepping computation gives the same date as the pattern-by-pattern definition, and leaves `daysOfWeek` sorted in place exactly when the specific-days branch sorts it |
| Scheduler.StepSameWeekday | lib/storage.ts:1905-1920 | the same-weekday branch lands `interval` months on, on the first day of the original weekday, plus as many weeks as the original date was into its month |
| Scheduler.SkipToWeekday | lib/storage.ts:1872-1877 | the `do … while` loop stops on the first Monday-to-Friday day after the start |
| Scheduler.StepToWeekday | lib/storage.ts:1915-1917 | the `while` loop walks exactly `(weekday − start weekday) mod 7` days |
| Scheduler.WeekdayStepsToTarget | lib/storage.ts:1915-1917 | stepping one day at a time reaches the target weekday first after exactly `(w − a) mod 7` steps |
| Scheduler.NextKeepsTimeOfDay | lib/storage.ts:1864-1930 | every recurrence pattern keeps the time of day of the date it starts from |
| Scheduler.NextDailyOrCustom | lib/storage.ts:1868-1870 | daily and custom recurrences move `interval` days on, and one day when the interval is 0 (`interval \|\| 1`) |
| Scheduler.NextWeekly | lib/storage.ts:1879-1885 | weekly recurrences move 14 days on for every-other-week, and otherwise 7 × `interval` days (one week when it is 0) |
| Scheduler.NextWeekdays | lib/storage.ts:1872-1877 | the weekdays recurrence lands 1 to 3 days later on a Monday-to-Friday day, and every day skipped is a Saturday or a Sunday |
| Scheduler.WeekGap | lib/storage.ts:1887-1902 | from a weekday, the offset to the next listed weekday is 1 to 7 days, lands on a listed weekday and passes over none |
| Scheduler.NextSpecificDays | lib/storage.ts:1887-1902 | with weekdays 0..6 listed, the specific-days recurrence lands 1 to 7 days later on a listed weekday with no listed weekday in between |
| Scheduler.SpecificDaysExample | lib/storage.ts:1887-1902 | a Wednesday with days [1, 3, 5] moves on to the Friday two days later |
| Scheduler.NextSameWeekday | lib/storage.ts:1905-1920 | the monthly same-weekday rule keeps the weekday |
| Scheduler.NextUnchanged | lib/storage.ts:1887-1922 | specific days with no list, and monthly patterns other than same-date and same-weekday, leave the date unchanged |
| Scheduler.CompletionRefused | lib/storage.ts:440-499 | the update is abandoned exactly when an enabled spaced-repetition or recurring mode was already completed on the same local day |
| Scheduler.SpacedCompletion | lib/storage.ts:452-473 | a review adds one session and one review, stamps the review time, sets the interval to `GrowInterval` of the old one (ceil of ×2.5, ×1.3 or ×1 by difficulty, never smaller), sets the next review that many days on and leaves the task incomplete |
| Scheduler.RecurringCompletion | lib/storage.ts:476-490 | a recurring completion adds one session, stamps the completion time, sets the next due date by the pattern and leaves the task incomplete |
| Scheduler.PlainCompletion | lib/storage.ts:491-495 | a plain task gets one more session and is completed for good, stamped with the completion time |
| Scheduler.CompletionOncePerDay | lib/storage.ts:440-499 | once a spaced-repetition or recurring task is completed, a second completion on the same local day is refused |
| Scheduler.IndexOf | lib/storage.ts:442 | the index is that of the first task with the id, and there is none exactly when no task has the id |
| Scheduler.AfterCompletionFrame | lib/storage.ts:440-499 | only the first task with the id can change, ids are kept, and an unknown id or a refused completion leaves the list as it was |
| Scheduler.TasksDueToday | lib/storage.ts:381-398 | every listed task is an uncompleted, unarchived task of the input due by the end of today, and every such task is listed |
| Scheduler.DueTodayByDay | lib/storage.ts:1832-1853 | a recurring task is due exactly when its next due date falls on today, a spaced-repetition task exactly when its next review does, and a task with a disabled recurrence is never due |
| Scheduler.TaskProgress | lib/storage.ts:1855-1858 | with no estimate the progress is 100 when completed and 0 otherwise; it never exceeds 100 and reaches 100 once the sessions meet the estimate |
| Scheduler.IncrementDaily | lib/storage.ts:1416-1437 | only tasks with the id change, and their count is today's count plus one, dated today |
| Scheduler.IncrementDailyCount | lib/storage.ts:1416-1437 | counting a session raises today's count by one, and a stale or missing count restarts at 1 |
| Scheduler.ResetDaily | lib/storage.ts:1439-1451 | every count ends up dated today, today's counts are unchanged, and nothing else about a task changes |
| Reminders.ReminderFrequency | lib/storage.ts:1540-1569 | the minimum gap between showings is 0 for every break, 30 minutes, 1, 2 or 3 hours for the fixed frequencies, and the custom interval times its unit (0 for a custom frequency without one) |
| Reminders.ShouldShowRule | lib/storage.ts:1571-1601 | a disabled reminder or one for the other break is never shown; an applicable one is always shown when it runs every break, has a zero gap or was never shown, and otherwise exactly when its gap has passed since it was last shown |
| Reminders.ShouldShowLater | lib/storage.ts:1571-1601 | waiting never hides a reminder that is already due |
| Reminders.StampLastShown | lib/storage.ts:1603-1611 | exactly the reminders with the id get `lastShown` = now, and nothing else in the list changes |
| Reminders.StampHoldsBack | lib/storage.ts:1571-1611 | once stamped, a reminder with a positive gap is held back until the gap has passed |
| Reminders.RemindersForTypeMembers | lib/storage.ts:786-791 | the reminders for a break type are exactly the enabled reminders for that break or both |
| Reminders.CreateBreakReminder | lib/storage.ts:1522-1538 | a new reminder keeps its title, break type and category, and is enabled, shown every break and never shown yet |
| Reminders.DefaultBreakReminders | lib/storage.ts:1791-1830 | there are four built-in reminders with distinct titles, all enabled and never shown |
| Reminders.DefaultsCoverBothBreaks | lib/storage.ts:1791-1830 | three of the built-in reminders are offered on a short break and three on a long break |
| Reminders.CreateCompletion | lib/storage.ts:1689-1703 | a completion records the reminder, session, break type and interaction, stamped now |
| TaskList.ModeOf | components/tasks/task-manager.tsx:168-222 | the spaced branch applies exactly when spaced repetition is on, the recurring branch exactly when only recurrence is on |
| TaskList.OneFewer | components/tasks/task-manager.tsx:175 | `max(0, (n \|\| 1) − 1)` is never negative, is one fewer for a positive count and 0 otherwise |
| TaskList.UncheckedMeaning | components/tasks/task-manager.tsx:166-222 | unchecking leaves the task incomplete, without completion time and with one session fewer (never negative); the spaced branch clears the last review and takes one review back but keeps the next review date and interval, the recurring branch clears the last completion but keeps the next due date, and nothing else changes |
| TaskList.UncheckUndoesPlainCheck | components/tasks/task-manager.tsx:120-222 | checking a fresh plain task and unchecking it gives back the task it was |
| TaskList.UncheckAfterSpacedReview | components/tasks/task-manager.tsx:168-189 | unchecking a review takes back its session and review and makes the task eligible again today, while the grown interval and the scheduled review date stay |
| TaskList.UncheckAll | components/tasks/task-manager.tsx:166-222 | every task with the id is rewritten by the chosen branch and every other task is unchanged |
| TaskList.CompletedCount | components/tasks/task-manager.tsx:503-516 | today's completed count counts each task at most once |
| TaskList.StampedOnDay | components/tasks/task-manager.tsx:503-516 | a stamp counts for today exactly when it is truthy and falls on today's date |
| TaskList.CheckCountsToday | components/tasks/task-manager.tsx:503-516 | whatever its kind, a task checked at a nonzero time counts as done on that day |
| TaskList.UncheckLeavesToday | components/tasks/task-manager.tsx:166-222 | unchecking takes a task out of today's count, except a task with both modes on, whose recurring stamp survives the spaced branch |
| TaskList.DraftOf | components/tasks/task-manager.tsx:230-251 | the form shows the task's title, priority switch, category and mode switches |
| TaskList.SwitchesExclusive | components/tasks/task-manager.tsx:985-1043 | after either switch handler at most one mode is on, the switched one is as requested, and no other form field moves |
| TaskList.EnabledSwitchKeepsOther | components/tasks/task-manager.tsx:995 | a switch that is enabled (the other mode is off) never changes the other mode |
| TaskList.OptionalText | components/tasks/task-manager.tsx:253-372 | an all-blank text is stored as absent, otherwise as its trimmed form |
| TaskList.CategoryChoice | components/tasks/task-manager.tsx:253-372 | the "none" choice or an empty one stores no category, any other the trimmed name |
| TaskList.PriorityChoice | components/tasks/task-manager.tsx:253-372 | a priority is stored exactly when the priority switch is on |
| TaskList.DaysChoice | components/tasks/task-manager.tsx:253-372 | days of the week are stored exactly for the specific-days pattern |
| TaskList.EditedTaskMeaning | components/tasks/task-manager.tsx:274-325 | an edit keeps the task's id, completion, sessions and creation time, takes the trimmed title and estimate from the form, keeps the review progress of a task that stays spaced and the schedule of a task that stays recurring, and starts a newly enabled mode due now |
| TaskList.NewTaskMeaning | components/tasks/task-manager.tsx:327-363 | a new task starts incomplete with no sessions; a spaced one at interval 1 with no reviews, due now; an accepted form gives it a non-blank title |
| TaskList.NeverBothModes | components/tasks/task-manager.tsx:985-1043 | a form with at most one mode on never yields a task with both enabled, edited or new |
| TaskList.DraftsStartExclusive | components/tasks/task-manager.tsx:230-251 | the blank form and the form of a task with at most one mode have at most one mode on |
| TaskList.SavedTasksMeaning | components/tasks/task-manager.tsx:253-372 | editing rewrites only the tasks with the edited id and keeps the list's length and order; adding appends exactly one task |
| TaskList.WithoutTaskMeaning | components/tasks/task-manager.tsx:379-390 | deleting removes exactly the tasks with that id, and nothing when no task has it |
| TaskList.UnfinishedMeaning | components/tasks/task-manager.tsx:474-491 | clearing keeps exactly the incomplete tasks, removes as many as were completed, and changes nothing when none was |
| TaskList.StagedMembers | components/tasks/task-manager.tsx:409-460 | the filter stages keep exactly the tasks that pass all of them |
| TaskList.FilteredTasksMeaning | components/tasks/task-manager.tsx:409-472 | the view holds exactly the tasks passing every filter, ordered by priority rank descending and, within a rank, newest first |
| TaskList.SortedStateIsPermutation | components/tasks/task-manager.tsx:411-414 | with every filter passing everything, the view is the whole list sorted: the same tasks, each as often |
| TaskList.TaskManager.GetFilteredTasks | components/tasks/task-manager.tsx:409-472 | returns the filtered, sorted view of the state; when every filter passes everything the view is the state array itself, so the state becomes the sorted list (and is saved in that order by the next handler that saves it); otherwise the state is left as it was |
| TaskList.TaskManager.constructor | components/tasks/task-manager.tsx:27-71 | the list is loaded from storage, the form is empty and the filters are at their defaults |
| TaskList.TaskManager.SaveTasks | components/tasks/task-manager.tsx:113-116 | storage and the component hold the same list, and only the task list changes |
| TaskList.TaskManager.ToggleTask | components/tasks/task-manager.tsx:120-228 | an unknown id changes nothing; an incomplete task goes through the completion update unless the component refuses it; a completed one is unchecked by its kind's branch |
| TaskList.TaskManager.StartEditing | components/tasks/task-manager.tsx:230-251 | the dialog opens showing the task |
| TaskList.TaskManager.StartAdding | components/tasks/task-manager.tsx:825-842 | the dialog opens with an empty form for a new task |
| TaskList.TaskManager.SetSpaced | components/tasks/task-manager.tsx:985-994 | the form afterwards has at most one mode on |
| TaskList.TaskManager.SetRecurring | components/tasks/task-manager.tsx:1032-1041 | the form afterwards has at most one mode on |
| TaskList.TaskManager.SaveEdit | components/tasks/task-manager.tsx:253-372 | a rejected form changes nothing and keeps the dialog open; otherwise the saved list is written and the dialog closes |
| TaskList.TaskManager.SaveDraft | components/tasks/task-manager.tsx:273-372 | the accepted draft's saved list is written, only the task key of storage changes, and the dialog closes |
| TaskList.TaskManager.CancelEdit | components/tasks/task-manager.tsx:374-377 | the dialog closes and nothing else changes |
| TaskList.TaskManager.DeleteTask | components/tasks/task-manager.tsx:379-390 | an unknown id saves nothing; otherwise exactly the tasks with the id are removed |
| TaskList.TaskManager.ClearFinishedTasks | components/tasks/task-manager.tsx:474-491 | the count removed is the number of completed tasks; with none nothing is saved, otherwise only incomplete tasks remain |
| TaskList.TaskManager.ActiveCount | components/tasks/task-manager.tsx:519 | the active count never exceeds the number of tasks |
| TaskSelection.Bumped | hooks/use-task-selection.ts:34-38 | only the tasks with the id gain one session; every other task is unchanged |
| TaskSelection.IndexOfSameIds | hooks/use-task-selection.ts:34-46 | rewriting tasks without touching their ids keeps the first index of every id |
| TaskSelection.CreditedSessionFrame | hooks/use-task-selection.ts:26-54 | crediting changes only tasks with that id, and nothing at all for an empty or unknown id |
| TaskSelection.CreditedSessionMeaning | hooks/use-task-selection.ts:26-54 | the first task with the id gains a session in total and one today; below its estimate nothing else changes; a plain task that reaches its estimate is completed now and ends two sessions above where it started |
| TaskSelection.TaskSelection.constructor | hooks/use-task-selection.ts:7-8 | no task is selected and the selector is closed |
| TaskSelection.TaskSelection.SelectTaskForSession | hooks/use-task-selection.ts:10-19 | a focus session opens the selector and keeps the choice; a break drops the chosen task |
| TaskSelection.TaskSelection.HandleTaskSelect | hooks/use-task-selection.ts:21-24 | the choice is taken and the selector closes |
| TaskSelection.TaskSelection.ResetSelection | hooks/use-task-selection.ts:56-59 | no task is selected and the selector is closed |
| TaskSelection.TaskSelection.CompleteTaskSession | hooks/use-task-selection.ts:26-54 | the stored task list becomes the credited list and nothing else in storage changes |
| ReminderManager.Ids | components/timer/break-reminder-display.tsx:58 | the ids list the reminders' ids in order |
| ReminderManager.StampOneMore | components/tasks/break-reminder-manager.tsx:40-46 | stamping one more reminder after a list of them is one more `updateReminderLastShown` |
| ReminderManager.StampAllMeaning | components/tasks/break-reminder-manager.tsx:40-46 | after the stamps exactly the reminders whose id was stamped were last shown now; nothing else changes |
| ReminderManager.ShownMeaning | components/tasks/break-reminder-manager.tsx:24-46 | a reminder is shown exactly when it is stored and `shouldShowBreakReminder` accepts it; the enabled and break-type pre-filter only drops reminders that test refuses anyway |
| ReminderManager.ShowStampsDue | components/tasks/break-reminder-manager.tsx:24-46 | showing stamps now on every reminder sharing an id with a due one and leaves every other reminder as it was |
| ReminderManager.ShownIdIff | components/tasks/break-reminder-manager.tsx:24-46 | an id is among the shown reminders' ids exactly when some reminder with that id is enabled, for this break and due |
| ReminderManager.ShowBreakReminders | components/tasks/break-reminder-manager.tsx:24-95 | the reminders shown are the due ones, each is stamped, and only the reminder list in storage changes |
| ReminderManager.SessionIdOr | components/tasks/break-reminder-manager.tsx:67 | a given session id is used as it is; a missing one becomes `session_` followed by the time |
| ReminderManager.AddedOnce | components/tasks/break-reminder-manager.tsx:71-75 | the id is present afterwards, the old list is a prefix, at most one entry is added, and a list without repeats stays without repeats |
| ReminderManager.Done | components/tasks/break-reminder-manager.tsx:65-90 | the Done action logs one completion, adds the id to the current break's list unless already there, and stamps the reminder as shown now |
| ReminderManager.WithoutEyeRestMeaning | components/tasks/break-reminder-manager.tsx:170-171 | the reminders left are exactly those not titled "Eye Rest", and the list is unchanged when none was |
| ReminderManager.FormOf | components/tasks/break-reminder-manager.tsx:268-279 | the form shows the reminder's texts, break type, category, enabled flag and frequency, with the form defaults for absent optional fields |
| ReminderManager.DataOf | components/tasks/break-reminder-manager.tsx:211-228 | the saved data carries trimmed texts, a custom category only for the custom category with a selection, and a custom frequency only for the custom frequency |
| ReminderManager.SavedRemindersMeaning | components/tasks/break-reminder-manager.tsx:201-266 | editing rewrites only the reminders with the edited id, keeping id, creation time and last showing; adding appends one never-shown reminder whose id is the decimal time |
| ReminderManager.EditUnchangedKeepsReminder | components/tasks/break-reminder-manager.tsx:201-279 | opening a reminder and saving without changes gives it back, when its texts are already trimmed and a custom frequency has its interval |
| ReminderManager.WithoutReminderMeaning | components/tasks/break-reminder-manager.tsx:281-294 | deleting removes every reminder with the id, keeps the others, and changes nothing for a missing id |
| ReminderManager.Toggled | components/tasks/break-reminder-manager.tsx:296-305 | exactly the reminders with the id flip `enabled`, and nothing else changes |
| ReminderManager.ToggleTwiceRestores | components/tasks/break-reminder-manager.tsx:296-305 | toggling the same reminder twice restores the list |
| ReminderManager.UsingCategoryIff | components/tasks/break-reminder-manager.tsx:342-350 | a category is in use exactly when some reminder names it as its custom category |
| ReminderManager.UnitText | components/tasks/break-reminder-manager.tsx:379-395 | every unit name is plural, ending in "s" |
| ReminderManager.FrequencyText | components/tasks/break-reminder-manager.tsx:379-395 | each fixed frequency has its text, and a custom frequency without an interval reads "Custom" |
| ReminderManager.CustomFrequencyText | components/tasks/break-reminder-manager.tsx:379-395 | a custom frequency reads "Every", the interval and the unit, which ends in "s" exactly when the interval is not 1 |
| ReminderManager.OneHourText | components/tasks/break-reminder-manager.tsx:379-395 | one hour reads "Every 1 hour" |
| ReminderManager.BreakReminderManager.constructor | components/tasks/break-reminder-manager.tsx:98-120 | the screen starts with no reminders or categories, dialogs closed and a blank form |
| ReminderManager.BreakReminderManager.LoadReminders | components/tasks/break-reminder-manager.tsx:161-181 | an empty store is seeded with the four built-in reminders; otherwise "Eye Rest" reminders are dropped and storage is written only when one was |
| ReminderManager.BreakReminderManager.LoadCategories | components/tasks/break-reminder-manager.tsx:156-159 | the categories are the built-in ones merged with the stored ones by name |
| ReminderManager.BreakReminderManager.ResetForm | components/tasks/break-reminder-manager.tsx:183-193 | the form is blank and no reminder is being edited |
| ReminderManager.BreakReminderManager.HandleSave | components/tasks/break-reminder-manager.tsx:201-266 | a blank title changes nothing; otherwise the saved list is written, the dialog closes and the form resets |
| ReminderManager.BreakReminderManager.SaveList | components/tasks/break-reminder-manager.tsx:236-265 | the given list becomes the shown and the stored list, only the reminder key of storage changes, and the dialog closes on a blank form |
| ReminderManager.BreakReminderManager.HandleEdit | components/tasks/break-reminder-manager.tsx:268-279 | the form holds the reminder and the dialog opens on it |
| ReminderManager.BreakReminderManager.HandleDelete | components/tasks/break-reminder-manager.tsx:281-294 | an unknown id changes nothing; otherwise every reminder with it is removed and saved |
| ReminderManager.BreakReminderManager.ToggleReminder | components/tasks/break-reminder-manager.tsx:296-305 | the toggled list is shown and saved |
| ReminderManager.BreakReminderManager.HandleCreateCategory | components/tasks/break-reminder-manager.tsx:307-333 | a blank name changes nothing; otherwise a category with the trimmed name is appended to storage and the list reloads |
| ReminderManager.BreakReminderManager.SaveNewCategory | components/tasks/break-reminder-manager.tsx:322-332 | the category is appended to the stored categories, only that key changes, the shown list is the defaults merged with the stored ones, and the dialog closes with an empty name |
| ReminderManager.BreakReminderManager.HandleDeleteCategory | components/tasks/break-reminder-manager.tsx:335-360 | a category not on screen, or one a reminder uses, is kept; otherwise it is deleted from storage and the list reloads |
| BreakDisplay.Dedup | components/timer/break-reminder-display.tsx:41-42 | the set read back holds each stored id once with the same elements, and a list without repeats is kept as it is |
| BreakDisplay.ToggledId | components/timer/break-reminder-display.tsx:91-101 | the id's membership flips, every other id's membership is unchanged, and a list without repeats stays without repeats |
| BreakDisplay.ToggleTwiceRestores | components/timer/break-reminder-display.tsx:91-101 | ticking the same reminder twice leaves the same ticked set, and the same list when it started unticked |
| BreakDisplay.StampEach | components/timer/break-reminder-display.tsx:46-48 | each shown reminder is stamped in turn, and only the reminder list in storage changes |
| BreakDisplay.BreakReminderDisplay.constructor | components/timer/break-reminder-display.tsx:20-22 | the panel starts hidden with nothing shown, nothing ticked and nothing reported |
| BreakDisplay.BreakReminderDisplay.Open | components/timer/break-reminder-display.tsx:24-48 | opening shows the due reminders for the break, loads the ticked ids without repeats, stamps each shown reminder and clears the report flag |
| BreakDisplay.BreakReminderDisplay.Close | components/timer/break-reminder-display.tsx:49-51 | hiding the panel lets the next opening report again and keeps the rest of the state |
| BreakDisplay.BreakReminderDisplay.ReportShown | components/timer/break-reminder-display.tsx:55-60 | the shown ids are reported exactly when the panel is visible, has reminders, has not reported yet and has a callback, and then not again |
| BreakDisplay.BreakReminderDisplay.OnCompletedEvent | components/timer/break-reminder-display.tsx:63-80 | while visible a completion event adds the id once; while hidden it changes nothing |
| BreakDisplay.BreakReminderDisplay.ToggleReminderComplete | components/timer/break-reminder-display.tsx:91-112 | the id leaves or joins the ticked set, a completion is logged only when it joins, and the ticked list is persisted and reported with the shown ids |
| Engine.Round | lib/statistics-engine.ts:97 | `Math.round` gives the integer nearest to its argument, a half rounded up |
| Engine.FocusGoal | lib/statistics-engine.ts:87 | a set daily goal is used as it is, and the goal is never zero (an unset goal falls back to 4) |
| Engine.ScaledSign | lib/statistics-engine.ts:90-97 | a positive whole number of times an amount keeps the amount's sign |
| Engine.ShareBounds | lib/statistics-engine.ts:90-97 | progress capped at a positive goal is between 0 and 100 per cent of it, and exactly 100 at the goal |
| Engine.HomepageFocusStats | lib/statistics-engine.ts:79-99 | the card shows today's sessions and the capped goal label; the rounded share of the goal is between 0 and 100, is 100 once the goal is met and 0 before the first session |
| Engine.DayRangeMeaning | lib/statistics-engine.ts:138-141 | a timestamp lies inside the range of whole days exactly when its calendar day is one of them |
| Engine.GetStatsForDateRange | lib/statistics-engine.ts:132-169 | the sessions and focus minutes and the reminder completions between midnight of the first day and 23:59:59.000 of the last, the completed tasks, and one statistics entry per day of the range, whose sessions add up to at least the range's total |
| Engine.RangeAsWrittenWithinDays | lib/statistics-engine.ts:139-145 | the range as written counts no more sessions than the range of whole days |
| Engine.Breakdown | lib/statistics-engine.ts:147-156 | the loop yields one entry per day of the range, each day's own statistics, in order |
| Engine.RangeIsBreakdown | lib/statistics-engine.ts:143-156 | corrected range: the session count of the whole days is the sum of their daily breakdown, for any run of days |
| Engine.BreakdownSessions | lib/statistics-engine.ts:147-156 | the breakdown of a run of days holds exactly the sessions of the range those days span, none counted twice or lost |
| Engine.RangeAsWrittenMissesLastSecond | lib/statistics-engine.ts:138-141 | with the range ending at 23:59:59.000, a session at 23:59:59.500 on the last day is counted by that day's statistics but not by the range |
| Engine.Achievements | lib/statistics-engine.ts:184-199 | each achievement is present exactly when its threshold is met (4 sessions today, a streak of 4, 80% task completion, 70% break compliance), and none twice |
| Engine.InsightsOf | lib/statistics-engine.ts:201-212 | each insight is present exactly when its threshold is met (sessions under 20 minutes on average, more than 5 sessions per task, break compliance under 50%), and none twice |
| Engine.Recommendations | lib/statistics-engine.ts:214-225 | each recommendation is present exactly when its threshold is met (fewer than 2 sessions today, more than 10 active tasks, more than 5 upcoming reviews), and none twice |
| Engine.GetProductivityInsights | lib/statistics-engine.ts:174-232 | the three lists hold each message exactly when its threshold is met; a productive day is never also told to do more sessions, and break compliance never comes with the advice to take more breaks |
| Engine.StatsSummary | lib/statistics-engine.ts:260-278 | the totals are passed through, focus hours are the minutes over 60 rounded to one decimal, and the weekly progress is the rounded share of 28 sessions: within 0..100 up to the goal, at least 100 beyond it, 50 at half |
| StatsDisplay.FormatTime | components/stats/stats-display.tsx:120-127 | the label always ends in "m", and under an hour it is just the minutes |
| StatsDisplay.FormatTimeReadsBack | components/stats/stats-display.tsx:120-127 | from an hour on, the label reads back as the minutes: the number before "h" counts hours and the number before "m" the minutes below 60 |
| StatsDisplay.MotivationalMessage | components/stats/stats-display.tsx:149-156 | the starting message appears exactly for no sessions, and the goal message exactly when at least one session is done and the goal is met |
| StatsDisplay.MotivationMonotone | components/stats/stats-display.tsx:149-156 | once a session is done, more sessions never bring a lesser message, and each message below the goal means its share of the goal |
| StatsDisplay.BarTotalsStep | components/stats/stats-display.tsx:182-196 | appending the bar of a run of days keeps the bars' sums equal to the days' sums |
| StatsDisplay.MonthlyChartData | components/stats/stats-display.tsx:175-199 | one bar per run of seven days from the first, `ceil(n / 7)` bars, each the sums of its days, and the bars' sums add up to the month's |
| StatsDisplay.SessionTypeData | components/stats/stats-display.tsx:201-209 | no slices before today's statistics load; otherwise each session kind has its slice exactly when its count is positive, and every slice is positive |
| StatsDisplay.SessionTypeSlicesSum | components/stats/stats-display.tsx:201-209 | the slices of a day's statistics add up to its sessions |
| StatsDisplay.PositiveSlicesSum | components/stats/stats-display.tsx:208 | dropping the slices that are not positive keeps the sum when no slice is negative |
| StatsDisplay.BreakReminderData | components/stats/stats-display.tsx:211-219 | the completed slice appears exactly when some reminder was completed and the missed slice exactly when more were shown than completed; together they add up to the reminders shown |
| StatsDisplay.CalendarData | components/stats/stats-display.tsx:221-302 | the grid is 42 cells: blank up to the weekday of the first of the month, then each day of the month in order with its statistics and due tasks, then blank |
| StatsDisplay.MonthGrid | components/stats/stats-display.tsx:257-301 | the three loops build the month grid of the given first day and length |
| StatsDisplay.AssembledGrid | components/stats/stats-display.tsx:257-301 | blank cells up to the weekday of the first, then the cells of the month's days, then blank cells up to 42 form exactly the month grid |
| StatsDisplay.LeadingBlanks | components/stats/stats-display.tsx:260-262 | one blank cell for each weekday before the first of the month |
| StatsDisplay.AddMonthDays | components/stats/stats-display.tsx:265-291 | one cell per day of the month is appended after the given cells, in order |
| StatsDisplay.PadGrid | components/stats/stats-display.tsx:294-297 | blank cells are appended until the grid holds 42, keeping the cells already there |
| StatsDisplay.NavigateWeek | components/stats/stats-display.tsx:137-141 | the date moves seven days on or back, keeping the time of day and the weekday |
| StatsDisplay.NavigateMonthRollsOver | components/stats/stats-display.tsx:143-147 | moving a month keeps the time of day; from 31 January 2025 the next month is 3 March, and going back from there lands on 3 February |
| StatsDisplay.EarlyDays2025 | components/stats/stats-display.tsx:143-147 | the day numbers of 31 January, 3 February and 3 March 2025, and that 31 February 2025 is 3 March |
| StatsDisplay.CivilOf2025Days | components/stats/stats-display.tsx:143-147 | the calendar dates of the day numbers of 31 January and 3 March 2025 |
| Calendar.AddMonthsTimeOfDay | components/stats/stats-display.tsx:143-147 | moving by whole months keeps the time of day |
| SettingsForm.DigitPrefix | components/settings/settings-panel.tsx:331 | the result is the longest run of digits at the start of the text |
| SettingsForm.ParseInt | components/settings/settings-panel.tsx:331 | `parseInt` gives no number exactly when no digit follows the leading white space and optional sign |
| SettingsForm.NumberInput | components/settings/settings-panel.tsx:331-391 | text that is not a number, or is zero, gives the fallback, any other number is taken as parsed, and a nonzero fallback means the setting never becomes zero |
| SettingsForm.NumberInputReadsDigits | components/settings/settings-panel.tsx:331-391 | typing a number's digits sets that number; typing 0 or clearing the box sets the fallback |
| SettingsForm.AllDigitsPrefix | components/settings/settings-panel.tsx:331 | a text made only of digits is its own digit prefix |
| SettingsForm.WithOnlyKey | components/settings/settings-panel.tsx:198-199 | setting a key gives it the new value and leaves every other key as it was |
| SettingsForm.PanelDefaultsAreStoreDefaults | components/settings/settings-panel.tsx:22-40 | the panel's defaults are the storage layer's defaults, field by field |
| SettingsForm.FocusedWork | components/settings/settings-panel.tsx:395-400 | the focused-work text always ends in "m", and under an hour it is just the minutes |
| SettingsForm.DefaultFocusedWork | components/settings/settings-panel.tsx:395-400 | with the defaults, eight sessions of 25 minutes read "3h 20m" |
| SettingsForm.DefaultsHaveAudio | components/settings/settings-panel.tsx:306-308 | the defaults count as having audio because of the notification sound, and would not without it |
| SettingsForm.SettingsPanel.constructor | components/settings/settings-panel.tsx:48-49 | the panel starts from its defaults with no changes |
| SettingsForm.SettingsPanel.Load | components/settings/settings-panel.tsx:149-151 | the working copy becomes the stored settings |
| SettingsForm.SettingsPanel.HandleSettingChange | components/settings/settings-panel.tsx:198-205 | only the key changes, to the new value, and the form has changes |
| SettingsForm.SettingsPanel.HandleNumberInput | components/settings/settings-panel.tsx:331-391 | the numeric key takes the parsed value or its fallback, never zero with a nonzero fallback, and the form has changes |
| SettingsForm.SettingsPanel.SaveSettings | components/settings/settings-panel.tsx:207-227 | the working copy is stored unchanged, only the settings key of storage changes, and the form is clean |
| SettingsForm.SettingsPanel.OnSaveRequest | components/settings/settings-panel.tsx:185-196 | the settings are stored exactly when the form has changes; storage is untouched otherwise |
| SettingsForm.SettingsPanel.ResetSettings | components/settings/settings-panel.tsx:229-250 | the defaults are in the form and in storage, and the form is clean |
| SettingsForm.SettingsPanel.OnSettingsUpdated | components/settings/settings-panel.tsx:156-165 | each field the event carries replaces the working one, the rest stay, and the change flag is kept |
| SettingsForm.SettingsPanel.OnVolumeChange | components/settings/settings-panel.tsx:168-173 | only the sound volume changes |
| DaySelector.ToggleDay | components/ui/day-selector.tsx:23-29 | the clicked day's membership flips, every other day stays as it was, and an ascending list without repeats stays so |
| DaySelector.ToggleTwiceRestores | components/ui/day-selector.tsx:23-29 | clicking the same day twice gives back the selection it started from |
| DaySelector.TextOrderIsNumericOrder | components/ui/day-selector.tsx:27 | for one-digit numbers the default text sort orders as the numeric order |
| DaySelector.RowSortsNumerically | components/ui/day-selector.tsx:12-29 | every weekday of the row sorts by its text as by its number |
| DaySelector.AddedStaysStrict | components/ui/day-selector.tsx:27 | sorting an ascending list without repeats with one new day keeps it ascending without repeats |
| DaySelector.FilterStrictlyAscending | components/ui/day-selector.tsx:25 | removing days keeps a strictly ascending list strictly ascending |
| DaySelector.SameMembersSame | components/ui/day-selector.tsx:23-29 | two strictly ascending lists with the same members are the same list |
| Text.IntToString | components/tasks/break-reminder-manager.tsx:248 | an integer's text is the decimal digits of its magnitude, with a minus sign when it is negative |
| Text.NatToStringRoundTrip | components/timer/timer-display.tsx:127 | reading back the digits a number is written with gives the number |
| Text.PadStart | components/timer/timer-display.tsx:127 | `padStart` puts pad characters in front up to the width and leaves longer texts alone |
| Text.TwoDigits | components/timer/timer-display.tsx:127 | a number below 100 is written with exactly two digits |
| Text.TwoDigitsRoundTrip | components/timer/timer-display.tsx:127 | the zero-padded text still reads back as the number |
| Text.Trim | components/tasks/task-manager.tsx:254 | the trimmed text neither starts nor ends with white space |
| Text.TrimSlice | components/tasks/task-manager.tsx:279 | trimming keeps a middle slice of the text and drops only white space around it |
| Text.TrimEmptyIff | components/tasks/task-manager.tsx:254 | a text trims to nothing exactly when it is all white space, which is when the blank-title check refuses it |
| Text.TrimIdempotent | components/tasks/task-manager.tsx:279 | trimming twice is trimming once |
| Display.Share | components/timer/timer-display.tsx:131 | the elapsed share of a positive total is 0 at the start, 1 at the end and between them in between |
| Rollups.DailyReminderCompletions | lib/storage.ts:1127-1154 | one entry per stored day, with the day's date, the reminders listed by the sessions inside that day's window, the completions inside it and their percentage; each count within the totals |

## Left out

- Firebase sync (lib/firebase-service.ts and the sync calls inside the storage layer, the page and the settings panel) is left out because it is network I/O. The model keeps only the local store.
- Audio playback is left out because it drives `HTMLAudioElement`. This covers lib/audio-service.ts, the sound popover, the timer's `handleAudioChange` and the settings panel's sound previews. The timer display's audio effect is modelled only as the decision it takes (`Display.AudioDecisionRule`).
- Toasts, browser notifications, the notification sound and the texts of messages are left out because they only display something. Motivational, achievement, insight and recommendation messages are enumerations.
- React effect scheduling, `setInterval`, `window` custom events and stale closures are left out because they are runtime machinery. Each effect and each event handler is a method the caller invokes explicitly.
- Time zones are left out because the model has a single clock offset of zero.
  - `new Date(y, m, d)`, `toDateString` and ISO date strings all become day numbers.
  - The general round trip `CivilFromDays(DaysFromCivil(y, m, d))` is not proved; it is proved only for the concrete dates the lemmas name.
- Floating-point rounding is left out because reals replace it. `Math.round` is modelled on reals (`Engine.Round`).
- The random 30% sign-up prompt is a drawn number passed in as a parameter, because randomness cannot be modelled.
- `Math.random` ids and `Date.now()` are parameters, for the same reason.
- `getCalendarEvents`, `getAllData`, `clearAllData`, `exportAllStats` and `getDashboardStats` are left out because they are export and aggregation plumbing. The rollups that `getDashboardStats` gathers are each modelled.
- `getBreakReminderCompletionRate` and `getTodaysBreakReminderCompletions` are left out because no modelled component calls them.
- `recordBreakReminderCompletion` has no member of its own: it is modelled inline where the components call it (`ReminderManager.Done`, `BreakDisplay.BreakReminderDisplay.ToggleReminderComplete`).
- Category icons and colours (`getCategoryDisplayInfo`, `getCategoryIcon`, `getCategoryColor`) and `getCompletionStatusText` are left out because they are presentation only.
- `prepareWeeklyChartData` is left out because it only reformats dates for a locale.
- The category dialogs of the task manager and of the settings panel are left out because they duplicate the storage category operations that are modelled. So is the task manager's start-session confirmation dialog.
- Onboarding, authentication and the layout chrome are left out because they hold no domain logic.
- Scheduler.NextSpecificDays: the lemma assumes listed weekdays in 0..6, which is all the day selector can produce; the code does not check this itself.
- Store.AllCategories, Store.MergeByName, Store.LowerCase: `toLowerCase` is modelled on the letters A to Z only. Other cased letters compare exactly, so "ÉTUDE" and "étude" count as two names here but as one in the program. Full Unicode case mapping is a table this model does not carry.
- TaskList.CompletedCount: its contract states only the bound on the count. Which tasks count is stated by `TaskList.StampedOnDay` and `TaskList.CheckCountsToday` about the predicate it counts.

## Findings

| source | as written | input that shows it | evidently intended | confidence | as-written member | corrected member |
|---|---|---|---|---|---|---|
| app/page.tsx:157-184 | the day's statistics are recounted from the log after the new session was appended, and the session is then added again: `sessions + 1`, `focusTime + duration` | the first work session of a day: the stored count reads 2, so a goal of 2 fires the goal toast after one session | the recount alone, which already holds the new session | high (not executed) | Home.SessionCountedTwice | Home.RecountCountsOnce |
| components/timer/timer-container.tsx:208-221 | on auto-start the completed session leaves `isActive` true; the duration re-sync runs only while inactive, so `timeLeft` stays 0 | a work session completing with `autoStartBreaks` on: the break starts at 0 seconds and no tick moves it | the next session starts on a full clock of its own kind | high (not executed) | Timer.AutoStartStallsAtZero | Timer.RestartedSessionCountsDown |
| lib/statistics-engine.ts:138-141 | the range ends at `endDate + 'T23:59:59'`, 999 ms before the last day ends | a session at 23:59:59.500 on the last day: counted by that day's breakdown but not by the range total | the range runs through the last millisecond of the last day, so the total equals the sum of the breakdown | high (not executed) | Engine.RangeAsWrittenMissesLastSecond | Engine.RangeIsBreakdown |
