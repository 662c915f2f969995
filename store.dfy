/**
  * The browser store (`LocalStorage` in lib/storage.ts) as an object with
  * one field per storage key, holding the decoded value. Only the settings
  * record keeps its stored form, because reading it merges whatever was
  * stored into the defaults. Ids and the current time are parameters.
  */
module Store {

  import opened Options
  import opened Domain
  import opened Calendar
  import opened Seqs
  import opened Scheduler
  import opened Stats

  // ---------------------------------------------------------------------
  // Stored JSON and settings
  // ---------------------------------------------------------------------

  /**
    * What a storage key holds: nothing, text that does not decode to a
    * value (empty, the words `undefined` or `null`, or malformed JSON), or
    * JSON decoding to `value`.
    */
  datatype Stored<T> = Absent | Unreadable | Json(value: T)

  /** `safeJsonParse(text, defaultValue)`: the decoded value, or the default when there is none. */
  function SafeJsonParse<T>(item: Stored<T>, defaultValue: T): (r: T)
    ensures item.Json? ==> r == item.value
    ensures !item.Json? ==> r == defaultValue
  {
    match item
    case Json(v) => v
    case _ => defaultValue
  }

  /** The settings record as stored: any field may be missing. */
  datatype PartialSettings = PartialSettings(
    workDuration: Option<int>,
    shortBreakDuration: Option<int>,
    longBreakDuration: Option<int>,
    sessionsUntilLongBreak: Option<int>,
    autoStartBreaks: Option<bool>,
    autoStartWork: Option<bool>,
    notifications: Option<bool>,
    soundVolume: Option<real>,
    notificationVolume: Option<real>,
    autoCompleteTask: Option<bool>,
    darkMode: Option<bool>,
    showTaskEstimation: Option<bool>,
    focusAudio: Option<string>,
    breakAudio: Option<string>,
    notificationAudio: Option<string>,
    usePlaylistForLofi: Option<bool>,
    dailySessionGoal: Option<int>)

  /** `{}`. */
  const NoSettings: PartialSettings :=
    PartialSettings(None, None, None, None, None, None, None, None, None, None, None, None, None, None, None, None, None)

  /** `DEFAULT_SETTINGS`. */
  const DefaultSettings: Settings := Settings(
    workDuration := 25,
    shortBreakDuration := 5,
    longBreakDuration := 15,
    sessionsUntilLongBreak := 4,
    autoStartBreaks := false,
    autoStartWork := false,
    notifications := true,
    soundVolume := 0.5,
    notificationVolume := 0.7,
    autoCompleteTask := false,
    darkMode := false,
    showTaskEstimation := true,
    focusAudio := "none",
    breakAudio := "none",
    notificationAudio := "notification-ping",
    usePlaylistForLofi := true,
    dailySessionGoal := 8)

  function Pick<T>(o: Option<T>, d: T): T
  {
    if o.Some? then o.value else d
  }

  /** `{ ...base, ...p }`: each stored field wins over the base one. */
  function MergeSettings(base: Settings, p: PartialSettings): Settings
  {
    Settings(
      Pick(p.workDuration, base.workDuration),
      Pick(p.shortBreakDuration, base.shortBreakDuration),
      Pick(p.longBreakDuration, base.longBreakDuration),
      Pick(p.sessionsUntilLongBreak, base.sessionsUntilLongBreak),
      Pick(p.autoStartBreaks, base.autoStartBreaks),
      Pick(p.autoStartWork, base.autoStartWork),
      Pick(p.notifications, base.notifications),
      Pick(p.soundVolume, base.soundVolume),
      Pick(p.notificationVolume, base.notificationVolume),
      Pick(p.autoCompleteTask, base.autoCompleteTask),
      Pick(p.darkMode, base.darkMode),
      Pick(p.showTaskEstimation, base.showTaskEstimation),
      Pick(p.focusAudio, base.focusAudio),
      Pick(p.breakAudio, base.breakAudio),
      Pick(p.notificationAudio, base.notificationAudio),
      Pick(p.usePlaylistForLofi, base.usePlaylistForLofi),
      Pick(p.dailySessionGoal, base.dailySessionGoal))
  }

  /** Every field of `s`, as `JSON.stringify(s)` writes them. */
  function AllFields(s: Settings): PartialSettings
  {
    PartialSettings(Some(s.workDuration), Some(s.shortBreakDuration), Some(s.longBreakDuration),
      Some(s.sessionsUntilLongBreak), Some(s.autoStartBreaks), Some(s.autoStartWork), Some(s.notifications),
      Some(s.soundVolume), Some(s.notificationVolume), Some(s.autoCompleteTask), Some(s.darkMode),
      Some(s.showTaskEstimation), Some(s.focusAudio), Some(s.breakAudio), Some(s.notificationAudio),
      Some(s.usePlaylistForLofi), Some(s.dailySessionGoal))
  }

  /** `getSettings`: the defaults, overridden field by field by what is stored. */
  function ReadSettings(item: Stored<PartialSettings>): Settings
  {
    MergeSettings(DefaultSettings, SafeJsonParse(item, NoSettings))
  }

  /**
    * Nothing stored (or nothing readable) reads as the defaults; a record
    * saved in full reads back as itself; a field stored alone overrides
    * only that field.
    */
  lemma ReadSettingsCases(s: Settings, goal: int)
    ensures ReadSettings(Absent) == DefaultSettings && ReadSettings(Unreadable) == DefaultSettings
    ensures ReadSettings(Json(AllFields(s))) == s
    ensures ReadSettings(Json(NoSettings.(dailySessionGoal := Some(goal)))) == DefaultSettings.(dailySessionGoal := goal)
  {
  }

  // ---------------------------------------------------------------------
  // Per-day statistics records
  // ---------------------------------------------------------------------

  /** `allStats.findIndex(s => s.date === date)`. */
  function DateIndex(all: seq<DailyStats>, date: int): (r: Option<nat>)
    ensures r.None? <==> forall i :: 0 <= i < |all| ==> all[i].date != date
    ensures r.Some? ==> r.value < |all| && all[r.value].date == date
                        && forall i :: 0 <= i < r.value ==> all[i].date != date
  {
    if all == [] then None
    else if all[0].date == date then Some(0)
    else match DateIndex(all[1..], date)
      case None => None
      case Some(i) => Some(i + 1)
  }

  /** Overwrites the first record of the same date, or appends. */
  function Upsert(all: seq<DailyStats>, st: DailyStats): seq<DailyStats>
  {
    match DateIndex(all, st.date)
    case Some(i) => all[i := st]
    case None => all + [st]
  }

  function NotBefore(cutoff: int): DailyStats -> bool
  {
    (s: DailyStats) => s.date >= cutoff
  }

  /** How far back `saveDailyStats` keeps records, in days. */
  const KeepDays: int := 90

  /** The stored list after `saveDailyStats(st)` on `today`. */
  function SavedDailyStats(all: seq<DailyStats>, st: DailyStats, today: int): seq<DailyStats>
  {
    Filter(Upsert(all, st), NotBefore(today - KeepDays))
  }

  /** Looking a day up in a list filtered on dates alone sees the same first record as before, when it passes. */
  lemma {:induction false} FindDayFilter(s: seq<DailyStats>, cutoff: int, day: int)
    requires day >= cutoff
    ensures FindDay(Filter(s, NotBefore(cutoff)), day) == FindDay(s, day)
  {
    if s != [] {
      FindDayFilter(s[1..], cutoff, day);
      assert s == [s[0]] + s[1..];
    }
  }

  /** No record of a day before the cutoff survives. */
  lemma {:induction false} FindDayCut(s: seq<DailyStats>, cutoff: int, day: int)
    requires day < cutoff
    ensures FindDay(Filter(s, NotBefore(cutoff)), day).None?
  {
    if s != [] {
      FindDayCut(s[1..], cutoff, day);
      assert s == [s[0]] + s[1..];
    }
  }

  /** After an upsert the record found for its date is the one saved; other days are found as before. */
  lemma {:induction false} FindDayUpsert(all: seq<DailyStats>, st: DailyStats, day: int)
    ensures FindDay(Upsert(all, st), day) == if day == st.date then Some(st) else FindDay(all, day)
  {
    match DateIndex(all, st.date)
    case Some(i) =>
      FindDayUpdate(all, i, st, day);
    case None =>
      FindDayAppend(all, st, day);
  }

  lemma {:induction false} FindDayUpdate(all: seq<DailyStats>, i: nat, st: DailyStats, day: int)
    requires i < |all| && all[i].date == st.date
    requires forall j :: 0 <= j < i ==> all[j].date != st.date
    ensures FindDay(all[i := st], day) == if day == st.date then Some(st) else FindDay(all, day)
    decreases i
  {
    if i > 0 {
      FindDayUpdate(all[1..], i - 1, st, day);
      assert all[i := st][1..] == all[1..][i - 1 := st];
    }
  }

  lemma {:induction false} FindDayAppend(all: seq<DailyStats>, st: DailyStats, day: int)
    requires forall j :: 0 <= j < |all| ==> all[j].date != st.date
    ensures FindDay(all + [st], day) == if day == st.date then Some(st) else FindDay(all, day)
  {
    if all != [] {
      FindDayAppend(all[1..], st, day);
      assert (all + [st])[1..] == all[1..] + [st];
    }
  }

  /**
    * Saving a day's record: reading that day back gives the record (when
    * it is within the last 90 days), every other recent day reads as
    * before, and nothing older than 90 days remains.
    */
  lemma SaveDailyStatsReadBack(all: seq<DailyStats>, st: DailyStats, today: int, day: int)
    ensures day >= today - KeepDays ==>
              FindDay(SavedDailyStats(all, st, today), day) == if day == st.date then Some(st) else FindDay(all, day)
    ensures day < today - KeepDays ==> FindDay(SavedDailyStats(all, st, today), day).None?
  {
    if day >= today - KeepDays {
      FindDayFilter(Upsert(all, st), today - KeepDays, day);
      FindDayUpsert(all, st, day);
    } else {
      FindDayCut(Upsert(all, st), today - KeepDays, day);
    }
  }

  // ---------------------------------------------------------------------
  // Break-reminder completions
  // ---------------------------------------------------------------------

  /** How far back the completion log is kept, in days. */
  const KeepCompletionDays: int := 30

  function CompletedSince(cutoff: int): Completion -> bool
  {
    (c: Completion) => c.completedAt >= cutoff
  }

  /** The log after `addBreakReminderCompletion(c)` at `now`. */
  function LoggedCompletion(log: seq<Completion>, c: Completion, now: int): seq<Completion>
  {
    Filter(log + [c], CompletedSince(now - KeepCompletionDays * MsPerDay))
  }

  /**
    * The new completion is kept (last) unless it is older than 30 days;
    * the old entries are pruned to the last 30 days, in order; nothing
    * older survives.
    */
  lemma LoggedCompletionMeaning(log: seq<Completion>, c: Completion, now: int)
    ensures var cutoff := now - KeepCompletionDays * MsPerDay;
      LoggedCompletion(log, c, now)
        == Filter(log, CompletedSince(cutoff)) + (if c.completedAt >= cutoff then [c] else [])
    ensures forall i :: 0 <= i < |LoggedCompletion(log, c, now)| ==>
              LoggedCompletion(log, c, now)[i].completedAt >= now - KeepCompletionDays * MsPerDay
  {
    var cutoff := now - KeepCompletionDays * MsPerDay;
    FilterAppend(log, [c], CompletedSince(cutoff));
    FilterMembers(log + [c], CompletedSince(cutoff));
  }

  // ---------------------------------------------------------------------
  // Categories
  // ---------------------------------------------------------------------

  /** ASCII lower case (`toLowerCase` on the letters A to Z). */
  function LowerChar(c: char): char
  {
    if 'A' <= c <= 'Z' then (c as int + 32) as char else c
  }

  function LowerCase(s: string): string
  {
    Map(s, LowerChar)
  }

  /** Some category in `cats` has this name, ignoring ASCII case. */
  predicate HasName(cats: seq<Category>, name: string)
  {
    exists j :: 0 <= j < |cats| && LowerCase(cats[j].name) == LowerCase(name)
  }

  /** No two categories share a name, ignoring ASCII case. */
  predicate NamesDistinct(cats: seq<Category>)
  {
    forall i, j :: 0 <= i < j < |cats| ==> LowerCase(cats[i].name) != LowerCase(cats[j].name)
  }

  /** The defaults followed by each custom category whose name is not yet taken. */
  function MergeByName(acc: seq<Category>, custom: seq<Category>): seq<Category>
    decreases |custom|
  {
    if custom == [] then acc
    else MergeByName(if HasName(acc, custom[0].name) then acc else acc + [custom[0]], custom[1..])
  }

  /**
    * `getAllTaskCategories` / `getAllBreakReminderCategories`: the default
    * categories, then each stored one whose name (ignoring ASCII case) is not
    * already present.
    */
  method AllCategories(defaults: seq<Category>, custom: seq<Category>) returns (all: seq<Category>)
    ensures all == MergeByName(defaults, custom)
  {
    all := defaults;
    for i := 0 to |custom|
      invariant MergeByName(all, custom[i..]) == MergeByName(defaults, custom)
    {
      assert custom[i..][1..] == custom[i + 1..];
      if !HasName(all, custom[i].name) {
        all := all + [custom[i]];
      }
    }
    assert custom[|custom|..] == [];
  }

  /**
    * The merge starts with the defaults, adds only stored categories,
    * represents every stored name, and never repeats a name when the
    * defaults do not.
    */
  lemma MergeByNameMeaning(acc: seq<Category>, custom: seq<Category>)
    ensures |acc| <= |MergeByName(acc, custom)| && MergeByName(acc, custom)[..|acc|] == acc
    ensures forall i :: |acc| <= i < |MergeByName(acc, custom)| ==> MergeByName(acc, custom)[i] in custom
    ensures forall i :: 0 <= i < |custom| ==> HasName(MergeByName(acc, custom), custom[i].name)
    ensures forall i :: 0 <= i < |acc| ==> HasName(MergeByName(acc, custom), acc[i].name)
    ensures NamesDistinct(acc) ==> NamesDistinct(MergeByName(acc, custom))
  {
    MergeByNameExtends(acc, custom);
    MergeByNameCovers(acc, custom);
    if NamesDistinct(acc) {
      MergeByNameDistinct(acc, custom);
    }
  }

  /** The merge starts with what it was given and adds only stored categories. */
  lemma {:induction false} MergeByNameExtends(acc: seq<Category>, custom: seq<Category>)
    ensures |acc| <= |MergeByName(acc, custom)| && MergeByName(acc, custom)[..|acc|] == acc
    ensures forall i :: |acc| <= i < |MergeByName(acc, custom)| ==> MergeByName(acc, custom)[i] in custom
    decreases |custom|
  {
    if custom != [] {
      var next := if HasName(acc, custom[0].name) then acc else acc + [custom[0]];
      MergeByNameExtends(next, custom[1..]);
      var m := MergeByName(acc, custom);
      assert m == MergeByName(next, custom[1..]);
      assert m[..|acc|] == acc by {
        assert m[..|next|] == next;
        assert next[..|acc|] == acc;
      }
      forall i | |acc| <= i < |m|
        ensures m[i] in custom
      {
        if i < |next| {
          assert m[..|next|][i] == next[i] == custom[0];
        } else {
          assert m[i] in custom[1..];
        }
      }
    }
  }

  /** Every name given, default or stored, is represented in the merge. */
  lemma {:induction false} MergeByNameCovers(acc: seq<Category>, custom: seq<Category>)
    ensures forall i :: 0 <= i < |custom| ==> HasName(MergeByName(acc, custom), custom[i].name)
    ensures forall i :: 0 <= i < |acc| ==> HasName(MergeByName(acc, custom), acc[i].name)
    decreases |custom|
  {
    if custom != [] {
      var next := if HasName(acc, custom[0].name) then acc else acc + [custom[0]];
      MergeByNameCovers(next, custom[1..]);
      var m := MergeByName(acc, custom);
      assert m == MergeByName(next, custom[1..]);
      forall i | 0 <= i < |acc|
        ensures HasName(m, acc[i].name)
      {
        assert next[i] == acc[i];
      }
      assert HasName(next, custom[0].name) by {
        if HasName(acc, custom[0].name) {
          var j :| 0 <= j < |acc| && LowerCase(acc[j].name) == LowerCase(custom[0].name);
          assert next[j] == acc[j];
        } else {
          assert next[|acc|] == custom[0];
        }
      }
      assert HasName(m, custom[0].name) by {
        var j :| 0 <= j < |next| && LowerCase(next[j].name) == LowerCase(custom[0].name);
        assert HasName(m, next[j].name);
      }
      forall i | 0 <= i < |custom|
        ensures HasName(m, custom[i].name)
      {
        if i > 0 {
          assert custom[i] == custom[1..][i - 1];
        }
      }
    }
  }

  /** The merge never repeats a name when what it was given does not. */
  lemma {:induction false} MergeByNameDistinct(acc: seq<Category>, custom: seq<Category>)
    requires NamesDistinct(acc)
    ensures NamesDistinct(MergeByName(acc, custom))
    decreases |custom|
  {
    if custom != [] {
      var next := if HasName(acc, custom[0].name) then acc else acc + [custom[0]];
      assert NamesDistinct(next) by {
        if !HasName(acc, custom[0].name) {
          forall i, j | 0 <= i < j < |next|
            ensures LowerCase(next[i].name) != LowerCase(next[j].name)
          {
            if j == |acc| {
              assert next[i] == acc[i];
            }
          }
        }
      }
      MergeByNameDistinct(next, custom[1..]);
    }
  }

  /** The built-in task category names: Work, Study, Personal, Health, Creative. */
  const DefaultTaskCategoryNames: seq<string> := ["Work", "Study", "Personal", "Health", "Creative"]

  /** The built-in break-reminder category names. */
  const DefaultReminderCategoryNames: seq<string> := ["Hydration", "Movement", "Rest", "Nutrition", "Mindfulness"]

  /** `createTaskCategory(name)` for each built-in name, with the given ids. */
  function DefaultCategories(names: seq<string>, ids: seq<string>, now: int): (r: seq<Category>)
    requires |ids| == |names|
    ensures |r| == |names| && forall i :: 0 <= i < |names| ==> r[i].name == names[i] && r[i].id == ids[i]
  {
    seq(|names|, i requires 0 <= i < |names| => Category(ids[i], names[i], now))
  }

  /** The built-in names differ even ignoring ASCII case, so the merged lists never repeat a name. */
  lemma DefaultNamesDistinct(ids: seq<string>, now: int)
    requires |ids| == 5
    ensures NamesDistinct(DefaultCategories(DefaultTaskCategoryNames, ids, now))
    ensures NamesDistinct(DefaultCategories(DefaultReminderCategoryNames, ids, now))
  {
    var t := DefaultCategories(DefaultTaskCategoryNames, ids, now);
    var b := DefaultCategories(DefaultReminderCategoryNames, ids, now);
    forall i, j | 0 <= i < j < 5
      ensures LowerCase(t[i].name) != LowerCase(t[j].name)
      ensures LowerCase(b[i].name) != LowerCase(b[j].name)
    {
      assert LowerCase(t[i].name)[0] != LowerCase(t[j].name)[0]
             || |LowerCase(t[i].name)| != |LowerCase(t[j].name)|;
      assert LowerCase(b[i].name)[0] != LowerCase(b[j].name)[0]
             || |LowerCase(b[i].name)| != |LowerCase(b[j].name)|;
    }
  }

  function WithoutCategory(cats: seq<Category>, id: string): seq<Category>
  {
    Filter(cats, (c: Category) => c.id != id)
  }

  /** Deleting a category removes every one with that id and keeps the rest in order. */
  lemma WithoutCategoryMeaning(cats: seq<Category>, id: string)
    ensures forall i :: 0 <= i < |WithoutCategory(cats, id)| ==>
              WithoutCategory(cats, id)[i].id != id && WithoutCategory(cats, id)[i] in cats
    ensures forall i :: 0 <= i < |cats| && cats[i].id != id ==> cats[i] in WithoutCategory(cats, id)
    ensures (forall i :: 0 <= i < |cats| ==> cats[i].id != id) ==> WithoutCategory(cats, id) == cats
  {
    FilterMembers(cats, (c: Category) => c.id != id);
    if forall i :: 0 <= i < |cats| ==> cats[i].id != id {
      FilterAll(cats, (c: Category) => c.id != id);
    }
  }

  // ---------------------------------------------------------------------
  // The store
  // ---------------------------------------------------------------------

  /** The storage keys. */
  datatype Key = TodaySessionsKey | AllSessionsKey | TasksKey | SettingsKey | DailyStatsKey
               | RemindersKey | ReminderCategoriesKey | CompletionsKey | TaskCategoriesKey | LastResetKey
               | CurrentBreakKey

  /**
    * The per-task part of `updateTaskAfterCompletion` at `now`: one more
    * session, then the spaced review or the recurring advance, or plain
    * completion; `None` when an enabled mode was already completed today.
    */
  method CompleteTask(original: Task, now: int) returns (done: Option<Task>)
    ensures done == CompletedTask(original, now)
  {
    var task := original.(sessionsCompleted := original.sessionsCompleted + 1);
    if SpacedOn(task) {
      if !CanCompleteSpaced(task, now) {
        return None;
      }
      task := task.(spaced := Some(Reviewed(task.spaced.value, now)), completed := false);
    }
    if RecurringOn(task) {
      if !CanCompleteRecurring(task, now) {
        return None;
      }
      var recurring := task.recurring.value.(lastCompleted := Some(now));
      var nextDue, days := CalculateNextRecurringDate(now, recurring);
      CalculationIgnoresLastCompleted(now, original.recurring.value, Some(now));
      task := task.(recurring := Some(recurring.(nextDue := nextDue, daysOfWeek := days)), completed := false);
    } else if !SpacedOn(task) {
      task := task.(completed := true, completedAt := Some(now));
    }
    return Some(task);
  }

  class LocalStore {
    var todaySessions: seq<Session>
    var allSessions: seq<Session>
    var tasks: seq<Task>
    var settings: Stored<PartialSettings>
    var dailyStats: seq<DailyStats>
    var reminders: seq<BreakReminder>
    var reminderCategories: seq<Category>
    var completions: seq<Completion>
    var taskCategories: seq<Category>
    var lastDailyReset: Option<int>
    /** `currentBreakRemindersCompleted`: the ids of the reminders done during the current break. */
    var currentBreakCompleted: seq<string>

    /** An empty store. */
    constructor ()
      ensures todaySessions == [] && allSessions == [] && tasks == [] && settings == Absent
      ensures dailyStats == [] && reminders == [] && reminderCategories == [] && completions == []
      ensures taskCategories == [] && lastDailyReset == None && currentBreakCompleted == []
    {
      todaySessions := [];
      allSessions := [];
      tasks := [];
      settings := Absent;
      dailyStats := [];
      reminders := [];
      reminderCategories := [];
      completions := [];
      taskCategories := [];
      lastDailyReset := None;
      currentBreakCompleted := [];
    }

    /** Every key other than `k` holds what it held before. */
    twostate predicate OnlyChanged(k: Key)
      reads this
    {
      (k != TodaySessionsKey ==> todaySessions == old(todaySessions))
      && (k != AllSessionsKey ==> allSessions == old(allSessions))
      && (k != TasksKey ==> tasks == old(tasks))
      && (k != SettingsKey ==> settings == old(settings))
      && (k != DailyStatsKey ==> dailyStats == old(dailyStats))
      && (k != RemindersKey ==> reminders == old(reminders))
      && (k != ReminderCategoriesKey ==> reminderCategories == old(reminderCategories))
      && (k != CompletionsKey ==> completions == old(completions))
      && (k != TaskCategoriesKey ==> taskCategories == old(taskCategories))
      && (k != LastResetKey ==> lastDailyReset == old(lastDailyReset))
      && (k != CurrentBreakKey ==> currentBreakCompleted == old(currentBreakCompleted))
    }

    /** Every key outside `ks` holds what it held before. */
    twostate predicate OnlyChangedAmong(ks: set<Key>)
      reads this
    {
      (TodaySessionsKey !in ks ==> todaySessions == old(todaySessions))
      && (AllSessionsKey !in ks ==> allSessions == old(allSessions))
      && (TasksKey !in ks ==> tasks == old(tasks))
      && (SettingsKey !in ks ==> settings == old(settings))
      && (DailyStatsKey !in ks ==> dailyStats == old(dailyStats))
      && (RemindersKey !in ks ==> reminders == old(reminders))
      && (ReminderCategoriesKey !in ks ==> reminderCategories == old(reminderCategories))
      && (CompletionsKey !in ks ==> completions == old(completions))
      && (TaskCategoriesKey !in ks ==> taskCategories == old(taskCategories))
      && (LastResetKey !in ks ==> lastDailyReset == old(lastDailyReset))
      && (CurrentBreakKey !in ks ==> currentBreakCompleted == old(currentBreakCompleted))
    }

    /** The logs the statistics are recomputed from. */
    function Logs(): Logs
      reads this
    {
      Stats.Logs(allSessions, tasks, completions)
    }

    /** `getSettings`. */
    function GetSettings(): Settings
      reads this
    {
      ReadSettings(settings)
    }

    /** `saveSettings(s)`: the whole record is written. */
    method SaveSettings(s: Settings)
      modifies this
      ensures settings == Json(AllFields(s)) && OnlyChanged(SettingsKey)
      ensures GetSettings() == s
    {
      settings := Json(AllFields(s));
      ReadSettingsCases(s, 0);
    }

    /** `saveTodaysSessions`. */
    method SaveTodaysSessions(sessions: seq<Session>)
      modifies this
      ensures todaySessions == sessions && OnlyChanged(TodaySessionsKey)
    {
      todaySessions := sessions;
    }

    /** `addSession`: appends to the all-sessions log. */
    method AddSession(s: Session)
      modifies this
      ensures allSessions == old(allSessions) + [s] && OnlyChanged(AllSessionsKey)
    {
      allSessions := allSessions + [s];
    }

    /** `saveTasks`. */
    method SaveTasks(ts: seq<Task>)
      modifies this
      ensures tasks == ts && OnlyChanged(TasksKey)
    {
      tasks := ts;
    }

    /** `saveBreakReminders`. */
    method SaveBreakReminders(rs: seq<BreakReminder>)
      modifies this
      ensures reminders == rs && OnlyChanged(RemindersKey)
    {
      reminders := rs;
    }

    /** `saveDailyStats(st)`: overwrite or append the day's record, then drop records older than 90 days. */
    method SaveDailyStats(st: DailyStats, today: int)
      modifies this
      ensures dailyStats == SavedDailyStats(old(dailyStats), st, today) && OnlyChanged(DailyStatsKey)
    {
      var allStats := dailyStats;
      var existingIndex := DateIndex(allStats, st.date);
      if existingIndex.Some? {
        allStats := allStats[existingIndex.value := st];
      } else {
        allStats := allStats + [st];
      }
      var cutoff := today - 90;
      dailyStats := Filter(allStats, NotBefore(cutoff));
    }

    /** `addBreakReminderCompletion(c)` at `now`; the remote copy is not modelled. */
    method AddBreakReminderCompletion(c: Completion, now: int)
      modifies this
      ensures completions == LoggedCompletion(old(completions), c, now) && OnlyChanged(CompletionsKey)
    {
      var log := completions + [c];
      var cutoffDate := now - 30 * 24 * 60 * 60 * 1000;
      completions := Filter(log, CompletedSince(cutoffDate));
    }

    /** `addTaskCategory`. */
    method AddTaskCategory(c: Category)
      modifies this
      ensures taskCategories == old(taskCategories) + [c] && OnlyChanged(TaskCategoriesKey)
    {
      taskCategories := taskCategories + [c];
    }

    /** `deleteTaskCategory`. */
    method DeleteTaskCategory(id: string)
      modifies this
      ensures taskCategories == WithoutCategory(old(taskCategories), id) && OnlyChanged(TaskCategoriesKey)
    {
      taskCategories := WithoutCategory(taskCategories, id);
    }

    /** `addBreakReminderCategory`. */
    method AddBreakReminderCategory(c: Category)
      modifies this
      ensures reminderCategories == old(reminderCategories) + [c] && OnlyChanged(ReminderCategoriesKey)
    {
      reminderCategories := reminderCategories + [c];
    }

    /** `deleteBreakReminderCategory`. */
    method DeleteBreakReminderCategory(id: string)
      modifies this
      ensures reminderCategories == WithoutCategory(old(reminderCategories), id) && OnlyChanged(ReminderCategoriesKey)
    {
      reminderCategories := WithoutCategory(reminderCategories, id);
    }

    /**
      * `updateTaskAfterCompletion(id)` at `now`: finds the task, counts the
      * session, then reviews a spaced task or advances a recurring one
      * (abandoning the update when that mode was already completed today)
      * or completes a plain task, and writes the list back.
      */
    method UpdateTaskAfterCompletion(id: string, now: int)
      modifies this
      ensures tasks == AfterCompletion(old(tasks), id, now) && OnlyChanged(TasksKey)
    {
      var taskIndex := IndexOf(tasks, id);
      if taskIndex.None? {
        return;
      }
      var task := CompleteTask(tasks[taskIndex.value], now);
      if task.None? {
        return;
      }
      tasks := tasks[taskIndex.value := task.value];
    }

    /** `incrementDailySession(id)` on `today`. */
    method IncrementDailySession(id: string, today: int)
      modifies this
      ensures tasks == IncrementDaily(old(tasks), id, today) && OnlyChanged(TasksKey)
    {
      tasks := IncrementDaily(tasks, id, today);
    }

    /** `resetAllDailySessions` on `today`. */
    method ResetAllDailySessions(today: int)
      modifies this
      ensures tasks == ResetDaily(old(tasks), today) && OnlyChanged(TasksKey)
    {
      tasks := ResetDaily(tasks, today);
    }

    /** Records the day of the last daily reset (the `pomouono_last_daily_reset` key). */
    method SetLastDailyReset(day: int)
      modifies this
      ensures lastDailyReset == Some(day) && OnlyChanged(LastResetKey)
    {
      lastDailyReset := Some(day);
    }

    /** Writes the `currentBreakRemindersCompleted` list. */
    method SaveCurrentBreakCompleted(ids: seq<string>)
      modifies this
      ensures currentBreakCompleted == ids && OnlyChanged(CurrentBreakKey)
    {
      currentBreakCompleted := ids;
    }

    /** `getTodaysStats`: today's record, recomputed from the logs. */
    method GetTodaysStats(today: int) returns (r: DailyStats)
      ensures r == DayStats(Logs(), today)
    {
      r := GetDailyStats(Logs(), today);
    }
  }
}
