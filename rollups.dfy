/**
  * The summary rollups of the local store (lib/storage.ts): task statistics,
  * spaced-repetition statistics, break-reminder statistics and the overall
  * Pomodoro statistics. "Today" and "now" are parameters; the stored
  * per-day records are passed in as `stored`.
  */
module Rollups {

  import opened Options
  import opened Domain
  import opened Calendar
  import opened Seqs
  import opened Stats
  import Scheduler

  /** `part / whole * 100`, or 0 when there is nothing to divide by. */
  function Percent(part: int, whole: int): (r: real)
    ensures whole <= 0 ==> r == 0.0
    ensures whole > 0 && part >= 0 ==> r >= 0.0
    ensures whole > 0 && 0 <= part <= whole ==> r <= 100.0
  {
    if whole > 0 then (part as real / whole as real) * 100.0 else 0.0
  }

  /** `total / n`, or 0 when `n` is 0. */
  function Average(total: int, n: int): (r: real)
    ensures n <= 0 ==> r == 0.0
    ensures n > 0 && total >= 0 ==> r >= 0.0
  {
    if n > 0 then total as real / n as real else 0.0
  }

  /** An average times the count gives back the total. */
  lemma AverageTimesCount(total: int, n: int)
    requires n > 0
    ensures Average(total, n) * n as real == total as real
  {
  }

  // ---------------------------------------------------------------------
  // getTaskStats
  // ---------------------------------------------------------------------

  datatype DailyTaskCompletion = DailyTaskCompletion(date: int, completed: int, created: int)

  datatype TaskStats = TaskStats(
    totalTasks: int,
    completedTasks: int,
    activeTasks: int,
    completionRate: real,
    averageSessionsPerTask: real,
    tasksByCategory: map<string, int>,
    tasksByPriority: map<string, int>,
    dailyCompletions: seq<DailyTaskCompletion>,
    recurringTasksCompleted: int,
    spacedRepetitionTasksReviewed: int)

  /**
    * The completed-task filter of `getTaskStats`: a completed task, or an
    * enabled recurring task last completed today, or (only when the
    * recurring test does not apply) an enabled spaced task reviewed today.
    */
  predicate CountsAsCompleted(t: Task, today: int)
  {
    if t.completed then true
    else if RecurringOn(t) && IsSet(t.recurring.value.lastCompleted) then
      InDayWindow(t.recurring.value.lastCompleted.value, today)
    else if SpacedOn(t) && IsSet(t.spaced.value.lastReviewed) then
      InDayWindow(t.spaced.value.lastReviewed.value, today)
    else false
  }

  function CompletedToday(today: int): Task -> bool
  {
    (t: Task) => CountsAsCompleted(t, today)
  }

  /** `task.category || 'Uncategorized'`. */
  function CategoryKey(t: Task): string
  {
    if t.category.Some? && t.category.value != "" then t.category.value else "Uncategorized"
  }

  /** `task.priority || 'None'`. */
  function PriorityKey(t: Task): string
  {
    match t.priority
    case None => "None"
    case Some(Low) => "low"
    case Some(Medium) => "medium"
    case Some(High) => "high"
  }

  function HasCategory(k: string): Task -> bool
  {
    (t: Task) => CategoryKey(t) == k
  }

  function HasPriority(k: string): Task -> bool
  {
    (t: Task) => PriorityKey(t) == k
  }

  /** A tally of `key(t)` over `tasks`: one entry per key that occurs, holding how many tasks have it. */
  function TallyBy(tasks: seq<Task>, key: Task -> string, has: string -> Task -> bool): map<string, int>
  {
    map k | k in (set i | 0 <= i < |tasks| :: key(tasks[i])) :: Count(tasks, has(k))
  }

  function SessionsCompleted(t: Task): int { t.sessionsCompleted }

  /** `task.completedAt` is set and falls on `day`. */
  function FinishedOn(day: int): Task -> bool
  {
    (t: Task) => IsSet(t.completedAt) && DayOf(t.completedAt.value) == day
  }

  function CreatedOn(day: int): Task -> bool
  {
    (t: Task) => DayOf(t.createdAt) == day
  }

  function DailyTaskCompletionOf(tasks: seq<Task>, d: DailyStats): DailyTaskCompletion
  {
    DailyTaskCompletion(d.date, Count(tasks, FinishedOn(d.date)), Count(tasks, CreatedOn(d.date)))
  }

  predicate RecurringDone(t: Task)
  {
    RecurringOn(t) && IsSet(t.recurring.value.lastCompleted)
  }

  predicate SpacedDone(t: Task)
  {
    SpacedOn(t) && IsSet(t.spaced.value.lastReviewed)
  }

  /**
    * `getTaskStats`: counts, rates and tallies over the task list, with one
    * completion entry per stored day. The date range argument of the
    * source is never read, so it is not a parameter here.
    */
  function GetTaskStats(tasks: seq<Task>, stored: seq<DailyStats>, today: int): (r: TaskStats)
    ensures r.totalTasks == |tasks|
    ensures r.completedTasks == Count(tasks, CompletedToday(today)) && r.completedTasks <= r.totalTasks
    ensures r.activeTasks == Count(tasks, Scheduler.IsActive) && r.activeTasks <= r.totalTasks
    ensures r.completionRate == Percent(r.completedTasks, r.totalTasks) && 0.0 <= r.completionRate <= 100.0
    ensures r.averageSessionsPerTask == Average(Sum(tasks, SessionsCompleted), |tasks|)
    ensures r.tasksByCategory == TallyBy(tasks, CategoryKey, HasCategory)
    ensures r.tasksByPriority == TallyBy(tasks, PriorityKey, HasPriority)
    ensures |r.dailyCompletions| == |stored|
    ensures forall i :: 0 <= i < |stored| ==>
              r.dailyCompletions[i].date == stored[i].date
              && r.dailyCompletions[i].completed == Count(tasks, FinishedOn(stored[i].date)) <= |tasks|
              && r.dailyCompletions[i].created == Count(tasks, CreatedOn(stored[i].date)) <= |tasks|
    ensures r.recurringTasksCompleted == Count(tasks, RecurringDone) <= |tasks|
    ensures r.spacedRepetitionTasksReviewed == Count(tasks, SpacedDone) <= |tasks|
  {
    var completed := Count(tasks, CompletedToday(today));
    TaskStats(
      totalTasks := |tasks|,
      completedTasks := completed,
      activeTasks := Count(tasks, Scheduler.IsActive),
      completionRate := Percent(completed, |tasks|),
      averageSessionsPerTask := Average(Sum(tasks, SessionsCompleted), |tasks|),
      tasksByCategory := TallyBy(tasks, CategoryKey, HasCategory),
      tasksByPriority := TallyBy(tasks, PriorityKey, HasPriority),
      dailyCompletions := Map(stored, d => DailyTaskCompletionOf(tasks, d)),
      recurringTasksCompleted := Count(tasks, RecurringDone),
      spacedRepetitionTasksReviewed := Count(tasks, SpacedDone))
  }

  /**
    * For a task that is not both recurring and spaced (the editor never
    * saves one that is), the completed filter counts it exactly when it is
    * completed, or was completed or reviewed today.
    */
  lemma CountsAsCompletedIff(t: Task, today: int)
    requires !(RecurringOn(t) && SpacedOn(t))
    ensures CountsAsCompleted(t, today) <==>
              t.completed
              || (RecurringDone(t) && DayOf(t.recurring.value.lastCompleted.value) == today)
              || (SpacedDone(t) && DayOf(t.spaced.value.lastReviewed.value) == today)
  {
    if RecurringDone(t) {
      InDayWindowIff(t.recurring.value.lastCompleted.value, today);
    }
    if SpacedDone(t) {
      InDayWindowIff(t.spaced.value.lastReviewed.value, today);
    }
  }

  /** An active task is never a completed one, so active and completed-flag tasks never overlap. */
  lemma ActiveAndCompletedDisjoint(tasks: seq<Task>)
    ensures Count(tasks, Scheduler.IsActive) + Count(tasks, IsCompletedTask) <= |tasks|
  {
    CountDisjoint(tasks, Scheduler.IsActive, IsCompletedTask);
  }

  predicate IsCompletedTask(t: Task) { t.completed }

  /** Every completed task is among those the completed filter counts. */
  lemma CompletedFlagCounted(tasks: seq<Task>, today: int)
    ensures Count(tasks, IsCompletedTask) <= Count(tasks, CompletedToday(today))
  {
    CountMonotone(tasks, IsCompletedTask, CompletedToday(today));
  }

  /**
    * The category tally has a key for each task's category and no other,
    * and each key counts the tasks that carry it (at least one).
    */
  lemma TasksByCategoryTally(tasks: seq<Task>, stored: seq<DailyStats>, today: int)
    ensures forall i :: 0 <= i < |tasks| ==>
              CategoryKey(tasks[i]) in GetTaskStats(tasks, stored, today).tasksByCategory
    ensures forall k :: k in GetTaskStats(tasks, stored, today).tasksByCategory ==>
              1 <= GetTaskStats(tasks, stored, today).tasksByCategory[k] == Count(tasks, HasCategory(k))
  {
    TallyCounts(tasks, CategoryKey, HasCategory);
  }

  /** The same for the priority tally, keyed `low`, `medium`, `high` or `None`. */
  lemma TasksByPriorityTally(tasks: seq<Task>, stored: seq<DailyStats>, today: int)
    ensures forall i :: 0 <= i < |tasks| ==>
              PriorityKey(tasks[i]) in GetTaskStats(tasks, stored, today).tasksByPriority
    ensures forall k :: k in GetTaskStats(tasks, stored, today).tasksByPriority ==>
              1 <= GetTaskStats(tasks, stored, today).tasksByPriority[k] == Count(tasks, HasPriority(k))
  {
    TallyCounts(tasks, PriorityKey, HasPriority);
  }

  lemma TallyCounts(tasks: seq<Task>, key: Task -> string, has: string -> Task -> bool)
    requires forall k, t :: has(k)(t) <==> key(t) == k
    ensures forall i :: 0 <= i < |tasks| ==> key(tasks[i]) in TallyBy(tasks, key, has)
    ensures forall k :: k in TallyBy(tasks, key, has) ==> 1 <= TallyBy(tasks, key, has)[k] == Count(tasks, has(k))
  {
    var m := TallyBy(tasks, key, has);
    forall k | k in m
      ensures 1 <= m[k]
    {
      var i :| 0 <= i < |tasks| && key(tasks[i]) == k;
      FilterMembers(tasks, has(k));
      assert tasks[i] in Filter(tasks, has(k));
    }
  }

  // ---------------------------------------------------------------------
  // getSpacedRepetitionStats
  // ---------------------------------------------------------------------

  datatype ReviewItem = ReviewItem(
    id: string,
    title: string,
    nextReviewDate: int,
    difficulty: Difficulty,
    interval: int,
    reviewCount: int)

  datatype SpacedRepetitionStats = SpacedRepetitionStats(
    totalReviews: int,
    streakDays: nat,
    upcomingReviews: seq<ReviewItem>,
    difficultyDistribution: map<Difficulty, int>,
    retentionRate: real,
    averageInterval: real,
    tasksInReview: int)

  function ReviewCount(t: Task): int
  {
    if t.spaced.Some? then t.spaced.value.reviewCount else 0
  }

  function IntervalOf(t: Task): int
  {
    if t.spaced.Some? then t.spaced.value.interval else 0
  }

  /** The calendar day of each truthy `lastReviewed` among `spaced`. */
  function ReviewDays(spaced: seq<Task>): seq<int>
  {
    Map(Filter(spaced, HasReviewed), ReviewDay)
  }

  predicate HasReviewed(t: Task)
  {
    t.spaced.Some? && IsSet(t.spaced.value.lastReviewed)
  }

  function ReviewDay(t: Task): int
  {
    if HasReviewed(t) then DayOf(t.spaced.value.lastReviewed.value) else 0
  }

  /** How many leading entries of `u` are `day`, `day - 1`, `day - 2`, ... in turn. */
  function LeadingRun(u: seq<int>, day: int): nat
  {
    if u == [] || u[0] != day then 0 else 1 + LeadingRun(u[1..], day - 1)
  }

  /**
    * The review-streak loop: walks the distinct review days, newest first,
    * while the i-th one is `today - i`.
    */
  method ReviewStreak(uniqueDates: seq<int>, today: int) returns (streakDays: nat)
    ensures streakDays == LeadingRun(uniqueDates, today)
  {
    streakDays := 0;
    var i := 0;
    while i < |uniqueDates|
      invariant 0 <= i <= |uniqueDates| && streakDays == i
      invariant LeadingRun(uniqueDates, today) == i + LeadingRun(uniqueDates[i..], today - i)
    {
      assert uniqueDates[i..][1..] == uniqueDates[i + 1..];
      if uniqueDates[i] == today - i {
        streakDays := streakDays + 1;
      } else {
        break;
      }
      i := i + 1;
    }
    if i == |uniqueDates| {
      assert uniqueDates[i..] == [];
    }
  }

  /**
    * On distinct days, newest first and none after `day`, the run is the
    * number of consecutive days ending at `day` that all occur in `u`: each
    * of them occurs, and the day before the run does not.
    */
  lemma {:induction false} LeadingRunMeaning(u: seq<int>, day: int)
    requires StrictlyDescending(u)
    requires forall i :: 0 <= i < |u| ==> u[i] <= day
    ensures forall d :: day - LeadingRun(u, day) < d <= day ==> d in u
    ensures day - LeadingRun(u, day) !in u
  {
    if u != [] && u[0] == day {
      LeadingRunMeaning(u[1..], day - 1);
      assert u == [u[0]] + u[1..];
      forall i | 1 <= i < |u|
        ensures u[i] < day
      {
        assert u[0] > u[i];
      }
    } else if u != [] {
      forall i | 0 <= i < |u|
        ensures u[i] < day
      {
        if i > 0 {
          assert u[0] > u[i];
        }
      }
    }
  }

  function ItemOf(t: Task): ReviewItem
  {
    match t.spaced
    case Some(sr) => ReviewItem(t.id, t.title, sr.nextReviewDate, sr.difficulty, sr.interval, sr.reviewCount)
    case None => ReviewItem(t.id, t.title, 0, Easy, 0, 0)   // only spaced tasks are mapped
  }

  /** Due within the next seven days (or overdue). */
  function DueWithinWeek(now: int): Task -> bool
  {
    (t: Task) => t.spaced.Some? && t.spaced.value.nextReviewDate <= now + 7 * MsPerDay
  }

  function LaterReview(item: ReviewItem): int
  {
    -item.nextReviewDate
  }

  function HasDifficulty(d: Difficulty): Task -> bool
  {
    (t: Task) => t.spaced.Some? && t.spaced.value.difficulty == d
  }

  predicate Retained(t: Task)
  {
    ReviewCount(t) > 1
  }

  /** The reviews due within a week, earliest first (ties keep their list order). */
  function Upcoming(spaced: seq<Task>, now: int): (r: seq<ReviewItem>)
    ensures forall i, j :: 0 <= i < j < |r| ==> r[i].nextReviewDate <= r[j].nextReviewDate
  {
    var r := SortBy(Map(Filter(spaced, DueWithinWeek(now)), ItemOf), LaterReview, Zero);
    assert forall i, j :: 0 <= i < j < |r| ==> !Outranks(r[j], r[i], LaterReview, Zero);
    r
  }

  /** The upcoming list holds exactly the items of the tasks due within a week. */
  lemma UpcomingMembers(spaced: seq<Task>, now: int)
    ensures forall i :: 0 <= i < |Upcoming(spaced, now)| ==>
              exists t :: t in spaced && t.spaced.Some? && t.spaced.value.nextReviewDate <= now + 7 * MsPerDay
                          && Upcoming(spaced, now)[i] == ItemOf(t)
    ensures forall t :: t in spaced && t.spaced.Some? && t.spaced.value.nextReviewDate <= now + 7 * MsPerDay ==>
              ItemOf(t) in Upcoming(spaced, now)
  {
    var due := Filter(spaced, DueWithinWeek(now));
    FilterMembers(spaced, DueWithinWeek(now));
    var items := Map(due, ItemOf);
    var upcoming := Upcoming(spaced, now);
    SortByMembers(items, LaterReview, Zero);
    forall i | 0 <= i < |upcoming|
      ensures exists t :: t in spaced && t.spaced.Some? && t.spaced.value.nextReviewDate <= now + 7 * MsPerDay
                          && upcoming[i] == ItemOf(t)
    {
      var k :| 0 <= k < |items| && items[k] == upcoming[i];
      assert due[k] in spaced && DueWithinWeek(now)(due[k]);
    }
    forall t | t in spaced && t.spaced.Some? && t.spaced.value.nextReviewDate <= now + 7 * MsPerDay
      ensures ItemOf(t) in upcoming
    {
      var m :| 0 <= m < |spaced| && spaced[m] == t;
      assert t in due;
      var n :| 0 <= n < |due| && due[n] == t;
      assert items[n] == ItemOf(t);
      assert items[n] in items;
    }
  }

  /** How many spaced tasks have each difficulty, for the difficulties that occur. */
  function DifficultyTally(spaced: seq<Task>): (m: map<Difficulty, int>)
    ensures forall i :: 0 <= i < |spaced| && spaced[i].spaced.Some? ==> spaced[i].spaced.value.difficulty in m
    ensures forall d :: d in m ==> 1 <= m[d] == Count(spaced, HasDifficulty(d))
  {
    var m := map d | d in (set i | 0 <= i < |spaced| && spaced[i].spaced.Some? :: spaced[i].spaced.value.difficulty) ::
               Count(spaced, HasDifficulty(d));
    assert forall d :: d in m ==> 1 <= m[d] by {
      forall d | d in m
        ensures 1 <= m[d]
      {
        var i :| 0 <= i < |spaced| && spaced[i].spaced.Some? && spaced[i].spaced.value.difficulty == d;
        FilterMembers(spaced, HasDifficulty(d));
        assert spaced[i] in Filter(spaced, HasDifficulty(d));
      }
    }
    m
  }

  /**
    * `getSpacedRepetitionStats`: rollups over the enabled spaced-repetition
    * tasks, the review streak, and the reviews due within a week.
    */
  method GetSpacedRepetitionStats(tasks: seq<Task>, now: int) returns (r: SpacedRepetitionStats)
    ensures r.tasksInReview == Count(tasks, SpacedOn)
    ensures r.totalReviews == Sum(Filter(tasks, SpacedOn), ReviewCount)
    ensures r.streakDays == LeadingRun(DistinctDescending(ReviewDays(Filter(tasks, SpacedOn))), DayOf(now))
    ensures r.upcomingReviews == Upcoming(Filter(tasks, SpacedOn), now)
    ensures r.difficultyDistribution == DifficultyTally(Filter(tasks, SpacedOn))
    ensures r.retentionRate == Percent(Count(Filter(tasks, SpacedOn), Retained), r.tasksInReview)
    ensures 0.0 <= r.retentionRate <= 100.0
    ensures r.averageInterval == Average(Sum(Filter(tasks, SpacedOn), IntervalOf), r.tasksInReview)
  {
    var spaced := Filter(tasks, SpacedOn);
    var uniqueDates := DistinctDescending(ReviewDays(spaced));
    var streakDays := ReviewStreak(uniqueDates, DayOf(now));
    r := SpacedRepetitionStats(
      totalReviews := Sum(spaced, ReviewCount),
      streakDays := streakDays,
      upcomingReviews := Upcoming(spaced, now),
      difficultyDistribution := DifficultyTally(spaced),
      retentionRate := Percent(Count(spaced, Retained), |spaced|),
      averageInterval := Average(Sum(spaced, IntervalOf), |spaced|),
      tasksInReview := |spaced|);
  }

  /** The distinct review days meet the conditions of `LeadingRunMeaning` when no review lies after today. */
  lemma ReviewDaysDescending(spaced: seq<Task>, today: int)
    requires forall t :: t in spaced && HasReviewed(t) ==> DayOf(t.spaced.value.lastReviewed.value) <= today
    ensures StrictlyDescending(DistinctDescending(ReviewDays(spaced)))
    ensures forall i :: 0 <= i < |DistinctDescending(ReviewDays(spaced))| ==> DistinctDescending(ReviewDays(spaced))[i] <= today
  {
    var reviewed := Filter(spaced, HasReviewed);
    FilterMembers(spaced, HasReviewed);
    var days := ReviewDays(spaced);
    var u := DistinctDescending(days);
    forall i | 0 <= i < |u|
      ensures u[i] <= today
    {
      assert u[i] in days;
      var k :| 0 <= k < |days| && days[k] == u[i];
      assert reviewed[k] in spaced;
    }
  }

  // ---------------------------------------------------------------------
  // getBreakReminderStats
  // ---------------------------------------------------------------------

  datatype DateRange = DateRange(start: int, end: int)

  datatype Tally = Tally(shown: int, completed: int)

  datatype DailyReminderCompletion = DailyReminderCompletion(date: int, shown: int, completed: int, completionRate: real)

  datatype BreakReminderStats = BreakReminderStats(
    totalRemindersShown: int,
    totalRemindersCompleted: int,
    completionRate: real,
    remindersByCategory: map<string, Tally>,
    dailyCompletions: seq<DailyReminderCompletion>,
    averageCompletionsPerBreak: real)

  function SessionInRange(range: DateRange): Session -> bool
  {
    (s: Session) => range.start <= s.timestamp <= range.end
  }

  function CompletionInRange(range: DateRange): Completion -> bool
  {
    (c: Completion) => range.start <= c.completedAt <= range.end
  }

  /** The sessions the rollup reads: all of them, or those inside the range (ends included). */
  function RangeSessions(sessions: seq<Session>, range: Option<DateRange>): seq<Session>
  {
    if range.Some? then Filter(sessions, SessionInRange(range.value)) else sessions
  }

  function RangeCompletions(completions: seq<Completion>, range: Option<DateRange>): seq<Completion>
  {
    if range.Some? then Filter(completions, CompletionInRange(range.value)) else completions
  }

  /** Every reminder id listed as shown, session by session. */
  function ShownIds(sessions: seq<Session>): seq<string>
  {
    if sessions == [] then []
    else (if sessions[0].remindersShown.Some? then sessions[0].remindersShown.value else []) + ShownIds(sessions[1..])
  }

  /** The shown ids number exactly the sum of the shown counts. */
  lemma {:induction false} ShownIdsLength(sessions: seq<Session>)
    ensures |ShownIds(sessions)| == Sum(sessions, ShownCount)
  {
    if sessions != [] {
      ShownIdsLength(sessions[1..]);
    }
  }

  /** `reminders.find(r => r.id === id)`. */
  function FindReminder(reminders: seq<BreakReminder>, id: string): (r: Option<BreakReminder>)
    ensures r.Some? ==> r.value in reminders && r.value.id == id
    ensures r.None? <==> forall i :: 0 <= i < |reminders| ==> reminders[i].id != id
  {
    if reminders == [] then None
    else if reminders[0].id == id then Some(reminders[0])
    else FindReminder(reminders[1..], id)
  }

  function CategoryName(c: ReminderCategory): string
  {
    match c
    case Hydration => "hydration"
    case Movement => "movement"
    case Rest => "rest"
    case CustomCategory => "custom"
  }

  /** `reminder.customCategory || reminder.category`. */
  function ReminderKey(r: BreakReminder): string
  {
    if r.customCategory.Some? && r.customCategory.value != "" then r.customCategory.value else CategoryName(r.category)
  }

  /** The category key of the reminder with this id, if there is one. */
  function KeyOfId(reminders: seq<BreakReminder>, id: string): Option<string>
  {
    var found := FindReminder(reminders, id);
    if found.Some? then Some(ReminderKey(found.value)) else None
  }

  function IdIn(reminders: seq<BreakReminder>, k: string): string -> bool
  {
    (id: string) => KeyOfId(reminders, id) == Some(k)
  }

  function CompletionIn(reminders: seq<BreakReminder>, k: string): Completion -> bool
  {
    (c: Completion) => KeyOfId(reminders, c.reminderId) == Some(k)
  }

  function ReminderTally(reminders: seq<BreakReminder>, ids: seq<string>, completions: seq<Completion>): map<string, Tally>
  {
    var keys := (set i | 0 <= i < |ids| && KeyOfId(reminders, ids[i]).Some? :: KeyOfId(reminders, ids[i]).value)
              + (set i | 0 <= i < |completions| && KeyOfId(reminders, completions[i].reminderId).Some? ::
                   KeyOfId(reminders, completions[i].reminderId).value);
    map k | k in keys :: Tally(Count(ids, IdIn(reminders, k)), Count(completions, CompletionIn(reminders, k)))
  }

  predicate IsBreak(s: Session)
  {
    s.kind == ShortBreak || s.kind == LongBreak
  }

  function DailyReminderCompletionOf(sessions: seq<Session>, completions: seq<Completion>, d: DailyStats): DailyReminderCompletion
  {
    var shown := Sum(SessionsOn(sessions, d.date), ShownCount);
    var completed := CompletionsOn(completions, d.date);
    DailyReminderCompletion(d.date, shown, completed, Percent(completed, shown))
  }

  /** One entry per stored day: the reminders shown and completed within that day. */
  function DailyReminderCompletions(sessions: seq<Session>, completions: seq<Completion>, stored: seq<DailyStats>)
    : (r: seq<DailyReminderCompletion>)
    ensures |r| == |stored|
    ensures forall i :: 0 <= i < |stored| ==>
              r[i].date == stored[i].date
              && r[i].shown == Sum(SessionsOn(sessions, stored[i].date), ShownCount)
              && r[i].completed == CompletionsOn(completions, stored[i].date)
              && r[i].completionRate == Percent(r[i].completed, r[i].shown)
    ensures forall i :: 0 <= i < |stored| ==>
              0 <= r[i].shown <= Sum(sessions, ShownCount)
              && 0 <= r[i].completed <= |completions|
  {
    var r := Map(stored, d => DailyReminderCompletionOf(sessions, completions, d));
    forall i | 0 <= i < |stored|
      ensures 0 <= r[i].shown <= Sum(sessions, ShownCount)
    {
      SumFilterBound(sessions, ShownCount, OnDay(stored[i].date));
    }
    r
  }

  /**
    * `getBreakReminderStats`: shown and completed reminders inside the
    * optional range, tallied by category and by stored day.
    */
  function GetBreakReminderStats(sessions: seq<Session>, completions: seq<Completion>,
                                 reminders: seq<BreakReminder>, stored: seq<DailyStats>,
                                 range: Option<DateRange>): (r: BreakReminderStats)
    ensures r.totalRemindersShown == |ShownIds(RangeSessions(sessions, range))|
    ensures r.totalRemindersCompleted == |RangeCompletions(completions, range)| <= |completions|
    ensures r.completionRate == Percent(r.totalRemindersCompleted, r.totalRemindersShown) >= 0.0
    ensures r.totalRemindersShown == 0 ==> r.completionRate == 0.0
    ensures |r.dailyCompletions| == |stored|
    ensures forall i :: 0 <= i < |stored| ==>
              r.dailyCompletions[i].date == stored[i].date
              && r.dailyCompletions[i].shown == Sum(SessionsOn(RangeSessions(sessions, range), stored[i].date), ShownCount)
              && r.dailyCompletions[i].completed == CompletionsOn(RangeCompletions(completions, range), stored[i].date)
    ensures forall i :: 0 <= i < |stored| ==>
              0 <= r.dailyCompletions[i].shown <= r.totalRemindersShown
              && 0 <= r.dailyCompletions[i].completed <= r.totalRemindersCompleted
    ensures r.remindersByCategory
              == ReminderTally(reminders, ShownIds(RangeSessions(sessions, range)), RangeCompletions(completions, range))
    ensures r.averageCompletionsPerBreak == Average(r.totalRemindersCompleted, Count(RangeSessions(sessions, range), IsBreak))
    ensures r.averageCompletionsPerBreak >= 0.0
  {
    var fs := RangeSessions(sessions, range);
    var fc := RangeCompletions(completions, range);
    var shown := Sum(fs, ShownCount);
    ShownIdsLength(fs);
    var daily := DailyReminderCompletions(fs, fc, stored);
    BreakReminderStats(
      totalRemindersShown := shown,
      totalRemindersCompleted := |fc|,
      completionRate := Percent(|fc|, shown),
      remindersByCategory := ReminderTally(reminders, ShownIds(fs), fc),
      dailyCompletions := daily,
      averageCompletionsPerBreak := Average(|fc|, Count(fs, IsBreak)))
  }

  /**
    * Each shown id and each completion whose reminder exists is tallied
    * under that reminder's category, and every category in the tally
    * has at least one of them.
    */
  lemma ReminderTallyMeaning(reminders: seq<BreakReminder>, ids: seq<string>, completions: seq<Completion>)
    ensures forall i :: 0 <= i < |ids| && KeyOfId(reminders, ids[i]).Some? ==>
              KeyOfId(reminders, ids[i]).value in ReminderTally(reminders, ids, completions)
              && ReminderTally(reminders, ids, completions)[KeyOfId(reminders, ids[i]).value].shown >= 1
    ensures forall i :: 0 <= i < |completions| && KeyOfId(reminders, completions[i].reminderId).Some? ==>
              KeyOfId(reminders, completions[i].reminderId).value in ReminderTally(reminders, ids, completions)
              && ReminderTally(reminders, ids, completions)[KeyOfId(reminders, completions[i].reminderId).value].completed >= 1
    ensures forall k :: k in ReminderTally(reminders, ids, completions) ==>
              ReminderTally(reminders, ids, completions)[k].shown + ReminderTally(reminders, ids, completions)[k].completed >= 1
  {
    var m := ReminderTally(reminders, ids, completions);
    forall i | 0 <= i < |ids| && KeyOfId(reminders, ids[i]).Some?
      ensures KeyOfId(reminders, ids[i]).value in m && m[KeyOfId(reminders, ids[i]).value].shown >= 1
    {
      var k := KeyOfId(reminders, ids[i]).value;
      FilterMembers(ids, IdIn(reminders, k));
      assert ids[i] in Filter(ids, IdIn(reminders, k));
    }
    forall i | 0 <= i < |completions| && KeyOfId(reminders, completions[i].reminderId).Some?
      ensures KeyOfId(reminders, completions[i].reminderId).value in m
              && m[KeyOfId(reminders, completions[i].reminderId).value].completed >= 1
    {
      var k := KeyOfId(reminders, completions[i].reminderId).value;
      FilterMembers(completions, CompletionIn(reminders, k));
      assert completions[i] in Filter(completions, CompletionIn(reminders, k));
    }
  }

  /** Without a range every session and completion is read. */
  lemma NoRangeReadsAll(sessions: seq<Session>, completions: seq<Completion>, lo: int, hi: int)
    requires forall i :: 0 <= i < |sessions| ==> lo <= sessions[i].timestamp <= hi
    requires forall i :: 0 <= i < |completions| ==> lo <= completions[i].completedAt <= hi
    ensures RangeSessions(sessions, Some(DateRange(lo, hi))) == RangeSessions(sessions, None)
    ensures RangeCompletions(completions, Some(DateRange(lo, hi))) == RangeCompletions(completions, None)
  {
    FilterAll(sessions, SessionInRange(DateRange(lo, hi)));
    FilterAll(completions, CompletionInRange(DateRange(lo, hi)));
  }

  // ---------------------------------------------------------------------
  // getPomodoroStats
  // ---------------------------------------------------------------------

  datatype PomodoroStats = PomodoroStats(
    totalSessions: int,
    workSessions: int,
    shortBreakSessions: int,
    longBreakSessions: int,
    totalFocusTime: int,
    averageSessionLength: real,
    currentStreak: nat,
    longestStreak: int,
    sessionsToday: int,
    sessionsThisWeek: int)

  /** `Math.max(...stored.map(d => d.sessions), 0)`. */
  function MaxSessions(stored: seq<DailyStats>): (m: int)
    ensures m >= 0
    ensures forall i :: 0 <= i < |stored| ==> stored[i].sessions <= m
    ensures m == 0 || exists i :: 0 <= i < |stored| && stored[i].sessions == m
  {
    if stored == [] then 0
    else
      var rest := MaxSessions(stored[1..]);
      assert forall i :: 1 <= i < |stored| ==> stored[i] == stored[1..][i - 1];
      if stored[0].sessions > rest then stored[0].sessions else rest
  }

  /**
    * `getPomodoroStats`: counts over the whole session log, the
    * consecutive-day streak, the busiest stored day, and today's and this
    * week's session counts recomputed from the logs.
    */
  method GetPomodoroStats(logs: Logs, stored: seq<DailyStats>, now: int)
    returns (r: PomodoroStats, ghost week: WeeklyStats)
    ensures r.totalSessions == |logs.sessions| == r.workSessions + r.shortBreakSessions + r.longBreakSessions
    ensures r.workSessions == Count(logs.sessions, IsWork)
    ensures r.shortBreakSessions == Count(logs.sessions, IsShortBreak)
    ensures r.longBreakSessions == Count(logs.sessions, IsLongBreak)
    ensures r.totalFocusTime == FocusTime(logs.sessions)
    ensures r.averageSessionLength == Average(r.totalFocusTime, r.workSessions)
    ensures r.currentStreak == RunBack(SortBy(stored, DateOf, Zero), StreakStart(SortBy(stored, DateOf, Zero), DayOf(now)), MaxStreak)
    ensures r.longestStreak == MaxSessions(stored)
    ensures r.longestStreak >= 0 && forall i :: 0 <= i < |stored| ==> stored[i].sessions <= r.longestStreak
    ensures r.longestStreak == 0 || exists i :: 0 <= i < |stored| && stored[i].sessions == r.longestStreak
    ensures r.sessionsToday == |SessionsOn(logs.sessions, DayOf(now))|
    ensures IsWeekOf(logs, DayOf(now), week) && r.sessionsThisWeek == week.totalSessions
  {
    var sessions := logs.sessions;
    var today := GetDailyStats(logs, DayOf(now));
    var workSessions := Count(sessions, IsWork);
    var shortBreakSessions := Count(sessions, IsShortBreak);
    var longBreakSessions := Count(sessions, IsLongBreak);
    KindPartition(sessions);
    var totalFocusTime := FocusTime(sessions);
    var currentStreak := ConsecutiveActiveDaysStreak(stored, DayOf(now));
    var weekly := GetWeeklyStats(logs, DayOf(now));
    week := weekly;
    r := PomodoroStats(
      totalSessions := |sessions|,
      workSessions := workSessions,
      shortBreakSessions := shortBreakSessions,
      longBreakSessions := longBreakSessions,
      totalFocusTime := totalFocusTime,
      averageSessionLength := Average(totalFocusTime, workSessions),
      currentStreak := currentStreak,
      longestStreak := MaxSessions(stored),
      sessionsToday := today.sessions,
      sessionsThisWeek := weekly.totalSessions);
  }
}
