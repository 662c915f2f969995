/**
  * The records kept in browser storage: sessions, tasks with their
  * spaced-repetition and recurrence settings, break reminders and their
  * completion log, categories, per-day statistics and the settings record.
  * Optional properties of a record are `Option` fields; a `YYYY-MM-DD` date
  * is a day number (see `Calendar`).
  */
module Domain {

  import opened Options

  /** The three kinds of Pomodoro session. */
  datatype SessionType = Work | ShortBreak | LongBreak

  /** One entry of the session log. */
  datatype Session = Session(
    id: string,
    kind: SessionType,
    duration: int,                        // minutes
    completed: bool,
    timestamp: int,                       // ms
    taskId: Option<string>,
    remindersCompleted: Option<seq<string>>,
    remindersShown: Option<seq<string>>)

  datatype Difficulty = Easy | Moderate | Hard

  datatype SpacedRepetition = SpacedRepetition(
    enabled: bool,
    difficulty: Difficulty,
    nextReviewDate: int,
    reviewCount: int,
    lastReviewed: Option<int>,
    interval: int)                        // days until the next review

  datatype Pattern = Daily | Weekly | Monthly | Custom | Weekdays | SpecificDays
  datatype WeeklyPattern = EveryWeek | EveryOtherWeek | CustomWeeks
  datatype MonthlyPattern = SameDate | SameWeekday | LastWeekday

  datatype Recurring = Recurring(
    enabled: bool,
    pattern: Pattern,
    interval: int,
    daysOfWeek: Option<seq<int>>,         // 0 (Sunday) .. 6 (Saturday)
    dayOfMonth: Option<int>,
    lastCompleted: Option<int>,
    nextDue: int,
    weeklyPattern: Option<WeeklyPattern>,
    monthlyPattern: Option<MonthlyPattern>)

  datatype Priority = Low | Medium | High

  /** Sessions logged for a task on one calendar day. */
  datatype DailyCount = DailyCount(date: int, count: int)

  datatype Task = Task(
    id: string,
    title: string,
    description: Option<string>,
    completed: bool,
    sessionsCompleted: int,
    estimatedSessions: int,
    createdAt: int,
    autoComplete: Option<bool>,
    dailySessions: Option<DailyCount>,
    spaced: Option<SpacedRepetition>,
    recurring: Option<Recurring>,
    category: Option<string>,
    priority: Option<Priority>,
    completedAt: Option<int>,
    archivedAt: Option<int>)

  /** A number-valued optional property read in a condition: absent and 0 are both false. */
  predicate IsSet(o: Option<int>)
  {
    o.Some? && o.value != 0
  }

  /** `task.spacedRepetition?.enabled`. */
  predicate SpacedOn(t: Task)
  {
    t.spaced.Some? && t.spaced.value.enabled
  }

  /** `task.recurring?.enabled`. */
  predicate RecurringOn(t: Task)
  {
    t.recurring.Some? && t.recurring.value.enabled
  }

  datatype ReminderBreakType = Short | Long | Both

  /** The break a reminder is requested for: never `Both`. */
  type BreakKind = b: ReminderBreakType | b != Both witness Short

  datatype ReminderCategory = Hydration | Movement | Rest | CustomCategory
  datatype Frequency = EveryBreak | Every30Min | Hourly | Every2Hours | Every3Hours | CustomFrequency
  datatype FrequencyUnit = Minutes | Hours | Breaks
  datatype CustomFreq = CustomFreq(interval: int, unit: FrequencyUnit)

  datatype BreakReminder = BreakReminder(
    id: string,
    title: string,
    description: string,
    breakType: ReminderBreakType,
    category: ReminderCategory,
    customCategory: Option<string>,       // id of a custom category
    enabled: bool,
    frequency: Frequency,
    customFrequency: Option<CustomFreq>,
    createdAt: int,
    lastShown: Option<int>)

  /** One entry of the break-reminder completion log. */
  datatype Completion = Completion(
    id: string,
    reminderId: string,
    completedAt: int,
    sessionId: string,
    breakType: BreakKind,
    userInteraction: bool)

  /** A user-defined task or break-reminder category. */
  datatype Category = Category(id: string, name: string, createdAt: int)

  datatype DailyStats = DailyStats(
    sessions: int,
    focusTime: int,
    tasksCompleted: int,
    streak: int,
    date: int,
    workSessions: int,
    shortBreakSessions: int,
    longBreakSessions: int,
    remindersShown: int,
    remindersCompleted: int)

  datatype Settings = Settings(
    workDuration: int,
    shortBreakDuration: int,
    longBreakDuration: int,
    sessionsUntilLongBreak: int,
    autoStartBreaks: bool,
    autoStartWork: bool,
    notifications: bool,
    soundVolume: real,
    notificationVolume: real,
    autoCompleteTask: bool,
    darkMode: bool,
    showTaskEstimation: bool,
    focusAudio: string,
    breakAudio: string,
    notificationAudio: string,
    usePlaylistForLofi: bool,
    dailySessionGoal: int)
}
