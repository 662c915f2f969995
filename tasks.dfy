/**
  * The task list of components/tasks/task-manager.tsx: checking and
  * unchecking a task, the edit dialog (its draft, validation and the
  * spaced-repetition/recurring switches), deletion, clearing finished tasks,
  * the filtered and sorted view, and today's completed count.
  */
module TaskList {

  import opened Options
  import opened Domain
  import opened Calendar
  import opened Seqs
  import opened Text
  import opened Scheduler
  import Store

  // ---------------------------------------------------------------------
  // Unchecking
  // ---------------------------------------------------------------------

  /** Which branch of the uncheck path applies: spaced repetition is tested first. */
  datatype UncheckMode = UncheckSpaced | UncheckRecurring | UncheckPlain

  function ModeOf(t: Task): (m: UncheckMode)
    ensures m == UncheckSpaced <==> SpacedOn(t)
    ensures m == UncheckRecurring <==> !SpacedOn(t) && RecurringOn(t)
  {
    if SpacedOn(t) then UncheckSpaced else if RecurringOn(t) then UncheckRecurring else UncheckPlain
  }

  /** `Math.max(0, (n || 1) - 1)`: one fewer, never below zero. */
  function OneFewer(n: int): (r: int)
    ensures r >= 0
    ensures n >= 1 ==> r == n - 1
    ensures n <= 1 ==> r == 0
  {
    var m := OrOne(n) - 1;
    if m > 0 then m else 0
  }

  /** A task as the uncheck branch `m` rewrites it. */
  function Unchecked(t: Task, m: UncheckMode): Task
  {
    var base := t.(completed := false, completedAt := None, sessionsCompleted := OneFewer(t.sessionsCompleted));
    match m
    case UncheckSpaced =>
      base.(spaced := if t.spaced.Some? then
                        Some(t.spaced.value.(lastReviewed := None, reviewCount := OneFewer(t.spaced.value.reviewCount)))
                      else None)
    case UncheckRecurring =>
      base.(recurring := if t.recurring.Some? then Some(t.recurring.value.(lastCompleted := None)) else None)
    case UncheckPlain => base
  }

  /**
    * Unchecking leaves the task incomplete with no completion time and one
    * session fewer (never negative).  The spaced branch forgets the last
    * review and takes one review back but keeps the schedule (next review
    * date, interval, difficulty); the recurring branch forgets the last
    * completion but keeps the next due date.  Nothing else changes.
    */
  lemma UncheckedMeaning(t: Task, m: UncheckMode)
    ensures var u := Unchecked(t, m);
      !u.completed && u.completedAt.None? && u.sessionsCompleted >= 0
      && (t.sessionsCompleted >= 1 ==> u.sessionsCompleted == t.sessionsCompleted - 1)
      && u.(completed := t.completed, completedAt := t.completedAt, sessionsCompleted := t.sessionsCompleted,
            spaced := t.spaced, recurring := t.recurring) == t
      && (m == UncheckSpaced ==>
            u.recurring == t.recurring && u.spaced.Some? == t.spaced.Some?
            && (t.spaced.Some? ==>
                  u.spaced.value.lastReviewed.None?
                  && u.spaced.value.reviewCount == OneFewer(t.spaced.value.reviewCount)
                  && u.spaced.value.nextReviewDate == t.spaced.value.nextReviewDate
                  && u.spaced.value.interval == t.spaced.value.interval
                  && u.spaced.value.difficulty == t.spaced.value.difficulty
                  && u.spaced.value.enabled == t.spaced.value.enabled))
      && (m == UncheckRecurring ==>
            u.spaced == t.spaced && u.recurring.Some? == t.recurring.Some?
            && (t.recurring.Some? ==>
                  u.recurring.value == t.recurring.value.(lastCompleted := None)))
      && (m == UncheckPlain ==> u.spaced == t.spaced && u.recurring == t.recurring)
  {
  }

  /** Checking a plain task and unchecking it again gives back the task it was. */
  lemma UncheckUndoesPlainCheck(t: Task, now: int)
    requires !SpacedOn(t) && !RecurringOn(t)
    requires !t.completed && t.completedAt.None? && t.sessionsCompleted >= 0
    ensures CompletedTask(t, now).Some?
    ensures ModeOf(CompletedTask(t, now).value) == UncheckPlain
    ensures Unchecked(CompletedTask(t, now).value, UncheckPlain) == t
  {
    PlainCompletion(t, now);
  }

  /**
    * Unchecking a spaced review takes back its session and its review and
    * makes the task eligible again today, but the grown interval and the
    * next review date the review scheduled stay as they are.
    */
  lemma UncheckAfterSpacedReview(t: Task, now: int)
    requires SpacedOn(t) && CompletedTask(t, now).Some?
    requires t.sessionsCompleted >= 0 && t.spaced.value.reviewCount >= 0
    ensures var c := CompletedTask(t, now).value;
      var u := Unchecked(c, ModeOf(c));
      u.sessionsCompleted == t.sessionsCompleted
      && u.spaced.value.reviewCount == t.spaced.value.reviewCount
      && u.spaced.value.interval == c.spaced.value.interval
      && u.spaced.value.nextReviewDate == c.spaced.value.nextReviewDate
      && CanCompleteSpaced(u, now)
  {
    SpacedCompletion(t, now);
  }

  /**
    * The component's own refusal before checking: a spaced task is tested
    * for a review today, otherwise a recurring task for a completion today.
    */
  predicate CheckRefused(t: Task, now: int)
  {
    if SpacedOn(t) then !CanCompleteSpaced(t, now) else RecurringOn(t) && !CanCompleteRecurring(t, now)
  }

  /** The list after unchecking: every task with the id is rewritten by the same branch. */
  function UncheckAll(tasks: seq<Task>, id: string, m: UncheckMode): (r: seq<Task>)
    ensures |r| == |tasks|
    ensures forall i :: 0 <= i < |tasks| ==> r[i] == if tasks[i].id == id then Unchecked(tasks[i], m) else tasks[i]
  {
    Map(tasks, (t: Task) => if t.id == id then Unchecked(t, m) else t)
  }

  // ---------------------------------------------------------------------
  // Today's completed count
  // ---------------------------------------------------------------------

  /** A truthy timestamp inside today's window. */
  predicate StampedOn(o: Option<int>, today: int)
  {
    IsSet(o) && InDayWindow(o.value, today)
  }

  /** The test behind `completedCount`: completed, last completed or last reviewed today. */
  predicate DoneToday(t: Task, today: int)
  {
    (t.completed && StampedOn(t.completedAt, today))
    || (RecurringOn(t) && StampedOn(t.recurring.value.lastCompleted, today))
    || (SpacedOn(t) && StampedOn(t.spaced.value.lastReviewed, today))
  }

  function DoneOn(today: int): Task -> bool
  {
    (t: Task) => DoneToday(t, today)
  }

  /** `completedCount`: each task is counted once, however many of its stamps fall today. */
  function CompletedCount(tasks: seq<Task>, today: int): (n: nat)
    ensures n <= |tasks|
  {
    Count(tasks, DoneOn(today))
  }

  /** A timestamp is stamped today exactly when it is truthy and falls on today's date. */
  lemma StampedOnDay(o: Option<int>, today: int)
    ensures StampedOn(o, today) <==> IsSet(o) && DayOf(o.value) == today
  {
    if o.Some? {
      InDayWindowIff(o.value, today);
    }
  }

  /** Whatever kind of task was checked at a nonzero `now`, it counts as done on that day. */
  lemma CheckCountsToday(t: Task, now: int)
    requires now != 0 && CompletedTask(t, now).Some?
    ensures DoneToday(CompletedTask(t, now).value, DayOf(now))
  {
    StampedOnDay(Some(now), DayOf(now));
    if SpacedOn(t) {
      SpacedCompletion(t, now);
    } else if RecurringOn(t) {
      RecurringCompletion(t, now);
    }
  }

  /**
    * Unchecking takes a task out of today's count, unless it has both modes
    * enabled: the spaced branch then leaves the recurring stamp behind.
    */
  lemma UncheckLeavesToday(t: Task, today: int)
    ensures !(SpacedOn(t) && RecurringOn(t)) ==> !DoneToday(Unchecked(t, ModeOf(t)), today)
    ensures SpacedOn(t) && RecurringOn(t) && StampedOn(t.recurring.value.lastCompleted, today)
            ==> DoneToday(Unchecked(t, ModeOf(t)), today)
  {
  }

  // ---------------------------------------------------------------------
  // The edit dialog
  // ---------------------------------------------------------------------

  /** The dialog's form fields. */
  datatype Draft = Draft(
    title: string,
    description: string,
    estimate: int,
    priority: Priority,
    priorityEnabled: bool,
    category: string,
    autoComplete: bool,
    spacedOn: bool,
    difficulty: Difficulty,
    recurringOn: bool,
    pattern: Pattern,
    interval: int,
    daysOfWeek: seq<int>)

  /** The form the "Add Task" button opens. */
  const BlankDraft: Draft :=
    Draft("", "", 0, Medium, false, "none", false, false, Moderate, false, Daily, 1, [])

  /** `startEditing(task)`: the task's fields, with the form's defaults for what it lacks. */
  function DraftOf(t: Task): (d: Draft)
    ensures d.title == t.title
    ensures d.priorityEnabled <==> t.priority.Some?
    ensures d.spacedOn <==> SpacedOn(t)
    ensures d.recurringOn <==> RecurringOn(t)
    ensures t.category.Some? && t.category.value != "" ==> d.category == t.category.value
  {
    Draft(
      t.title,
      if t.description.Some? then t.description.value else "",
      t.estimatedSessions,
      if t.priority.Some? then t.priority.value else Medium,
      t.priority.Some?,
      if t.category.Some? && t.category.value != "" then t.category.value else "none",
      t.autoComplete == Some(true),
      SpacedOn(t),
      if t.spaced.Some? then t.spaced.value.difficulty else Moderate,
      RecurringOn(t),
      if t.recurring.Some? then t.recurring.value.pattern else Daily,
      if t.recurring.Some? && t.recurring.value.interval != 0 then t.recurring.value.interval else 1,
      if t.recurring.Some? && t.recurring.value.daysOfWeek.Some? then t.recurring.value.daysOfWeek.value else [])
  }

  /** The spaced-repetition switch handler: turning it on turns recurring off. */
  function SpacedSwitched(d: Draft, checked: bool): Draft
  {
    d.(spacedOn := checked, recurringOn := if checked && d.recurringOn then false else d.recurringOn)
  }

  /** The recurring switch handler: turning it on turns spaced repetition off. */
  function RecurringSwitched(d: Draft, checked: bool): Draft
  {
    d.(recurringOn := checked, spacedOn := if checked && d.spacedOn then false else d.spacedOn)
  }

  /** Each switch is disabled while the other mode is on. */
  predicate SpacedSwitchEnabled(d: Draft)
  {
    !d.recurringOn
  }

  predicate RecurringSwitchEnabled(d: Draft)
  {
    !d.spacedOn
  }

  /**
    * After either handler the draft has at most one mode on, the switched
    * one is as requested, and no other field of the form moves.
    */
  lemma SwitchesExclusive(d: Draft, checked: bool)
    ensures var s := SpacedSwitched(d, checked);
      !(s.spacedOn && s.recurringOn) && s.spacedOn == checked
      && (!checked ==> s.recurringOn == d.recurringOn)
      && s.(spacedOn := d.spacedOn, recurringOn := d.recurringOn) == d
    ensures var r := RecurringSwitched(d, checked);
      !(r.spacedOn && r.recurringOn) && r.recurringOn == checked
      && (!checked ==> r.spacedOn == d.spacedOn)
      && r.(spacedOn := d.spacedOn, recurringOn := d.recurringOn) == d
  {
  }

  /** With the other switch disabled, an enabled switch never turns the other mode off. */
  lemma EnabledSwitchKeepsOther(d: Draft, checked: bool)
    ensures SpacedSwitchEnabled(d) ==> SpacedSwitched(d, checked).recurringOn == d.recurringOn
    ensures RecurringSwitchEnabled(d) ==> RecurringSwitched(d, checked).spacedOn == d.spacedOn
  {
  }

  /** `saveEdit`'s refusals: a blank title, or specific days with no day chosen. */
  predicate DraftRejected(d: Draft)
  {
    Trim(d.title) == "" || (d.recurringOn && d.pattern == SpecificDays && |d.daysOfWeek| == 0)
  }

  /** `text.trim() || undefined`. */
  function OptionalText(s: string): (o: Option<string>)
    ensures o.None? <==> Trim(s) == ""
    ensures o.Some? ==> o.value == Trim(s)
  {
    if Trim(s) == "" then None else Some(Trim(s))
  }

  /** The category field: the "none" choice (or nothing) stores no category. */
  function CategoryChoice(c: string): (o: Option<string>)
    ensures o.None? <==> c == "" || c == "none"
    ensures o.Some? ==> o.value == Trim(c)
  {
    if c != "" && c != "none" then Some(Trim(c)) else None
  }

  function PriorityChoice(d: Draft): (o: Option<Priority>)
    ensures o.None? <==> !d.priorityEnabled
    ensures o.Some? ==> o.value == d.priority
  {
    if d.priorityEnabled then Some(d.priority) else None
  }

  function DaysChoice(d: Draft): (o: Option<seq<int>>)
    ensures o.Some? <==> d.pattern == SpecificDays
    ensures o.Some? ==> o.value == d.daysOfWeek
  {
    if d.pattern == SpecificDays then Some(d.daysOfWeek) else None
  }

  /** The edited task: the form's fields over the task, its review and recurrence progress kept. */
  function EditedTask(t: Task, d: Draft, now: int): Task
  {
    t.(title := Trim(d.title),
       description := OptionalText(d.description),
       estimatedSessions := d.estimate,
       priority := PriorityChoice(d),
       category := CategoryChoice(d.category),
       autoComplete := Some(d.autoComplete),
       spaced := if d.spacedOn then
                   Some(SpacedRepetition(
                     true, d.difficulty,
                     if t.spaced.Some? && t.spaced.value.nextReviewDate != 0 then t.spaced.value.nextReviewDate else now,
                     if t.spaced.Some? then t.spaced.value.reviewCount else 0,
                     if t.spaced.Some? then t.spaced.value.lastReviewed else None,
                     if t.spaced.Some? then OrOne(t.spaced.value.interval) else 1))
                 else None,
       recurring := if d.recurringOn then
                      Some(Recurring(
                        true, d.pattern, d.interval, DaysChoice(d), None,
                        if t.recurring.Some? then t.recurring.value.lastCompleted else None,
                        if t.recurring.Some? && t.recurring.value.nextDue != 0 then t.recurring.value.nextDue else now,
                        None, None))
                    else None)
  }

  /** A task created from the form at `now`, with the given id. */
  function NewTask(d: Draft, id: string, now: int): Task
  {
    Task(id, Trim(d.title), OptionalText(d.description), false, 0, d.estimate, now,
         Some(d.autoComplete), None,
         if d.spacedOn then Some(SpacedRepetition(true, d.difficulty, now, 0, None, 1)) else None,
         if d.recurringOn then Some(Recurring(true, d.pattern, d.interval, DaysChoice(d), None, None, now, None, None)) else None,
         CategoryChoice(d.category), PriorityChoice(d), None, None)
  }

  /**
    * Editing replaces what the form shows and keeps the task's identity and
    * progress: its id, completion, session counts and creation time, the
    * review count, last review and interval of a spaced task that stays
    * spaced, and the last completion and next due date of a recurring task
    * that stays recurring.  A mode switched on fresh starts due `now`.
    */
  lemma EditedTaskMeaning(t: Task, d: Draft, now: int)
    ensures var e := EditedTask(t, d, now);
      e.id == t.id && e.completed == t.completed && e.completedAt == t.completedAt
      && e.sessionsCompleted == t.sessionsCompleted && e.createdAt == t.createdAt
      && e.dailySessions == t.dailySessions && e.archivedAt == t.archivedAt
      && e.title == Trim(d.title) && e.estimatedSessions == d.estimate
      && (SpacedOn(e) <==> d.spacedOn) && (RecurringOn(e) <==> d.recurringOn)
      && (d.spacedOn && t.spaced.Some? ==>
            e.spaced.value.reviewCount == t.spaced.value.reviewCount
            && e.spaced.value.lastReviewed == t.spaced.value.lastReviewed
            && (t.spaced.value.interval != 0 ==> e.spaced.value.interval == t.spaced.value.interval))
      && (d.spacedOn && t.spaced.None? ==> e.spaced.value.nextReviewDate == now && e.spaced.value.interval == 1)
      && (d.recurringOn && t.recurring.Some? ==>
            e.recurring.value.lastCompleted == t.recurring.value.lastCompleted
            && (t.recurring.value.nextDue != 0 ==> e.recurring.value.nextDue == t.recurring.value.nextDue))
      && (d.recurringOn && t.recurring.None? ==> e.recurring.value.nextDue == now)
      && (d.recurringOn ==> (e.recurring.value.daysOfWeek.Some? <==> d.pattern == SpecificDays))
  {
  }

  /**
    * A new task starts incomplete with no sessions; a spaced one starts at
    * interval 1 with no reviews, due now; its title is the trimmed title,
    * which an accepted form guarantees is not blank.
    */
  lemma NewTaskMeaning(d: Draft, id: string, now: int)
    ensures var n := NewTask(d, id, now);
      n.id == id && !n.completed && n.sessionsCompleted == 0 && n.createdAt == now
      && n.completedAt.None? && n.archivedAt.None?
      && (SpacedOn(n) <==> d.spacedOn) && (RecurringOn(n) <==> d.recurringOn)
      && (d.spacedOn ==> n.spaced.value.interval == 1 && n.spaced.value.reviewCount == 0
                         && n.spaced.value.nextReviewDate == now && n.spaced.value.lastReviewed.None?)
      && (d.recurringOn ==> n.recurring.value.nextDue == now && n.recurring.value.lastCompleted.None?)
      && (!DraftRejected(d) ==> n.title != [] && !IsSpace(n.title[0]))
  {
  }

  /** A form with at most one mode on never yields a task with both enabled, edited or new. */
  lemma NeverBothModes(t: Task, d: Draft, id: string, now: int)
    requires !(d.spacedOn && d.recurringOn)
    ensures !(SpacedOn(EditedTask(t, d, now)) && RecurringOn(EditedTask(t, d, now)))
    ensures !(SpacedOn(NewTask(d, id, now)) && RecurringOn(NewTask(d, id, now)))
  {
  }

  /** The forms the dialog can hold start with at most one mode on when the task has at most one. */
  lemma DraftsStartExclusive(t: Task)
    ensures !(BlankDraft.spacedOn && BlankDraft.recurringOn)
    ensures !(SpacedOn(t) && RecurringOn(t)) ==> !(DraftOf(t).spacedOn && DraftOf(t).recurringOn)
  {
  }

  /**
    * The list `saveEdit` writes for an accepted form: the task being edited
    * rewritten, or the new task appended (a missing or empty id means "new").
    */
  function SavedTasks(tasks: seq<Task>, d: Draft, editing: Option<string>, newId: string, now: int): seq<Task>
  {
    if editing.Some? && editing.value != "" then
      Map(tasks, (t: Task) => if t.id == editing.value then EditedTask(t, d, now) else t)
    else
      tasks + [NewTask(d, newId, now)]
  }

  /**
    * Editing touches only the tasks with the edited id, and keeps the list's
    * length and order; adding appends exactly one task at the end.
    */
  lemma SavedTasksMeaning(tasks: seq<Task>, d: Draft, editing: Option<string>, newId: string, now: int)
    ensures var r := SavedTasks(tasks, d, editing, newId, now);
      (editing.Some? && editing.value != "" ==>
         |r| == |tasks|
         && forall i :: 0 <= i < |tasks| ==>
              r[i].id == tasks[i].id
              && r[i] == (if tasks[i].id == editing.value then EditedTask(tasks[i], d, now) else tasks[i]))
      && (!(editing.Some? && editing.value != "") ==>
         |r| == |tasks| + 1 && r[..|tasks|] == tasks && r[|tasks|] == NewTask(d, newId, now))
  {
  }

  // ---------------------------------------------------------------------
  // Deleting and clearing
  // ---------------------------------------------------------------------

  function IdIsNot(id: string): Task -> bool
  {
    (t: Task) => t.id != id
  }

  /** `tasks.filter(task => task.id !== taskId)`. */
  function WithoutTask(tasks: seq<Task>, id: string): seq<Task>
  {
    Filter(tasks, IdIsNot(id))
  }

  /** Deleting removes exactly the tasks with that id, and nothing when no task has it. */
  lemma WithoutTaskMeaning(tasks: seq<Task>, id: string)
    ensures forall t :: t in WithoutTask(tasks, id) <==> t in tasks && t.id != id
    ensures (forall i :: 0 <= i < |tasks| ==> tasks[i].id != id) ==> WithoutTask(tasks, id) == tasks
  {
    FilterIn(tasks, IdIsNot(id));
    if forall i :: 0 <= i < |tasks| ==> tasks[i].id != id {
      FilterAll(tasks, IdIsNot(id));
    }
  }

  predicate IsFinished(t: Task)
  {
    t.completed
  }

  predicate IsUnfinished(t: Task)
  {
    !t.completed
  }

  /** `tasks.filter(task => !task.completed)`. */
  function Unfinished(tasks: seq<Task>): seq<Task>
  {
    Filter(tasks, IsUnfinished)
  }

  /**
    * Clearing removes exactly the completed tasks: the survivors are the
    * incomplete ones and as many tasks go as were completed.
    */
  lemma UnfinishedMeaning(tasks: seq<Task>)
    ensures forall t :: t in Unfinished(tasks) <==> t in tasks && !t.completed
    ensures |Unfinished(tasks)| + Count(tasks, IsFinished) == |tasks|
    ensures Count(tasks, IsFinished) == 0 ==> Unfinished(tasks) == tasks
  {
    FilterIn(tasks, IsUnfinished);
    CountDisjoint(tasks, IsUnfinished, IsFinished);
    CountCover(tasks);
    if Count(tasks, IsFinished) == 0 {
      FilterIn(tasks, IsFinished);
      forall i | 0 <= i < |tasks|
        ensures IsUnfinished(tasks[i])
      {
        assert tasks[i] in tasks;
      }
      FilterAll(tasks, IsUnfinished);
    }
  }

  /** Every task is finished or not, so the two counts cover the list. */
  lemma {:induction false} CountCover(tasks: seq<Task>)
    ensures Count(tasks, IsUnfinished) + Count(tasks, IsFinished) >= |tasks|
  {
    if tasks != [] {
      CountCover(tasks[1..]);
      assert tasks == [tasks[0]] + tasks[1..];
    }
  }

  // ---------------------------------------------------------------------
  // The filtered view
  // ---------------------------------------------------------------------

  datatype PriorityFilter = AnyPriority | NoPriority | OnlyPriority(p: Priority)
  datatype TypeFilter = AnyType | RegularType | RecurringType | SpacedType

  /** The view's filters; the category filter is the select's string ("all", "none" or a name). */
  datatype Filters = Filters(showCompleted: bool, priority: PriorityFilter, kind: TypeFilter, category: string)

  const DefaultFilters: Filters := Filters(false, AnyPriority, AnyType, "all")

  /** Hidden unless completed tasks are shown: completed, or a spaced/recurring task done for today. */
  predicate DoneForNow(t: Task, now: int)
  {
    t.completed
    || (RecurringOn(t) && !CanCompleteRecurring(t, now))
    || (SpacedOn(t) && !CanCompleteSpaced(t, now))
  }

  predicate PriorityMatches(t: Task, pf: PriorityFilter)
  {
    match pf
    case AnyPriority => true
    case NoPriority => t.priority.None?
    case OnlyPriority(p) => t.priority == Some(p)
  }

  predicate TypeMatches(t: Task, tf: TypeFilter)
  {
    match tf
    case AnyType => true
    case RegularType => !RecurringOn(t) && !SpacedOn(t)
    case RecurringType => RecurringOn(t)
    case SpacedType => SpacedOn(t)
  }

  predicate CategoryMatches(t: Task, cf: string)
  {
    if cf == "all" then true
    else if cf == "none" then t.category.None? || t.category.value == ""
    else t.category == Some(cf)
  }

  /** A task passes every stage of the view. */
  predicate Passes(t: Task, f: Filters, now: int)
  {
    (f.showCompleted || !DoneForNow(t, now))
    && PriorityMatches(t, f.priority) && TypeMatches(t, f.kind) && CategoryMatches(t, f.category)
  }

  function NotDoneForNow(now: int): Task -> bool
  {
    (t: Task) => !DoneForNow(t, now)
  }

  function PriorityIs(pf: PriorityFilter): Task -> bool
  {
    (t: Task) => PriorityMatches(t, pf)
  }

  function TypeIs(tf: TypeFilter): Task -> bool
  {
    (t: Task) => TypeMatches(t, tf)
  }

  function CategoryIs(cf: string): Task -> bool
  {
    (t: Task) => CategoryMatches(t, cf)
  }

  /** `priorityOrder[task.priority || 'none']`. */
  function PriorityRank(t: Task): int
  {
    match t.priority
    case None => 0
    case Some(Low) => 1
    case Some(Medium) => 2
    case Some(High) => 3
  }

  function CreatedAt(t: Task): int
  {
    t.createdAt
  }

  /** The visibility, priority, type and category stages of `getFilteredTasks`, in that order. */
  function Staged(tasks: seq<Task>, f: Filters, now: int): seq<Task>
  {
    var a := if f.showCompleted then tasks else Filter(tasks, NotDoneForNow(now));
    var b := if f.priority == AnyPriority then a else Filter(a, PriorityIs(f.priority));
    var c := if f.kind == AnyType then b else Filter(b, TypeIs(f.kind));
    if f.category == "all" then c else Filter(c, CategoryIs(f.category))
  }

  /** Every stage passes everything, so the stages hand back the list they were given. */
  predicate SortsState(f: Filters)
  {
    f.showCompleted && f.priority == AnyPriority && f.kind == AnyType && f.category == "all"
  }

  /**
    * With every stage passing everything, the view is the whole list
    * reordered: the same tasks, each as often, sorted by priority rank and
    * then newest first.
    */
  lemma SortedStateIsPermutation(tasks: seq<Task>, f: Filters, now: int)
    requires SortsState(f)
    ensures FilteredTasks(tasks, f, now) == SortBy(tasks, PriorityRank, CreatedAt)
    ensures multiset(FilteredTasks(tasks, f, now)) == multiset(tasks)
  {
    assert Staged(tasks, f, now) == tasks;
  }

  /** `getFilteredTasks` at time `now`: the stages, then the sort. */
  function FilteredTasks(tasks: seq<Task>, f: Filters, now: int): seq<Task>
  {
    SortBy(Staged(tasks, f, now), PriorityRank, CreatedAt)
  }

  /** The stages keep exactly the tasks that pass all of them. */
  lemma StagedMembers(tasks: seq<Task>, f: Filters, now: int)
    ensures forall t :: t in Staged(tasks, f, now) <==> t in tasks && Passes(t, f, now)
    ensures |Staged(tasks, f, now)| <= |tasks|
  {
    var a := if f.showCompleted then tasks else Filter(tasks, NotDoneForNow(now));
    var b := if f.priority == AnyPriority then a else Filter(a, PriorityIs(f.priority));
    var c := if f.kind == AnyType then b else Filter(b, TypeIs(f.kind));
    StageIn(tasks, f.showCompleted, NotDoneForNow(now));
    StageIn(a, f.priority == AnyPriority, PriorityIs(f.priority));
    StageIn(b, f.kind == AnyType, TypeIs(f.kind));
    StageIn(c, f.category == "all", CategoryIs(f.category));
    assert Staged(tasks, f, now) == if f.category == "all" then c else Filter(c, CategoryIs(f.category));
    forall t
      ensures t in Staged(tasks, f, now) <==> t in tasks && Passes(t, f, now)
    {
      assert f.priority == AnyPriority ==> PriorityMatches(t, f.priority);
      assert f.kind == AnyType ==> TypeMatches(t, f.kind);
      assert f.category == "all" ==> CategoryMatches(t, f.category);
      assert t in a <==> t in tasks && (f.showCompleted || !DoneForNow(t, now));
      assert t in b <==> t in a && PriorityMatches(t, f.priority);
      assert t in c <==> t in b && TypeMatches(t, f.kind);
      assert t in Staged(tasks, f, now) <==> t in c && CategoryMatches(t, f.category);
    }
  }

  /** A stage that may be skipped keeps what it would filter for, or everything when skipped. */
  lemma StageIn(s: seq<Task>, skip: bool, p: Task -> bool)
    ensures |if skip then s else Filter(s, p)| <= |s|
    ensures forall t :: t in (if skip then s else Filter(s, p)) <==> t in s && (skip || p(t))
  {
    FilterIn(s, p);
  }

  /**
    * The view holds exactly the tasks that pass every stage (so without
    * "show completed", no completed task and no spaced or recurring task
    * already done today), ordered by priority rank, highest first, and
    * within a rank newest first.
    */
  lemma FilteredTasksMeaning(tasks: seq<Task>, f: Filters, now: int)
    ensures forall t :: t in FilteredTasks(tasks, f, now) <==> t in tasks && Passes(t, f, now)
    ensures var r := FilteredTasks(tasks, f, now);
      forall i, j :: 0 <= i < j < |r| ==>
        PriorityRank(r[i]) > PriorityRank(r[j])
        || (PriorityRank(r[i]) == PriorityRank(r[j]) && r[i].createdAt >= r[j].createdAt)
    ensures !f.showCompleted ==> forall t :: t in FilteredTasks(tasks, f, now) ==> !t.completed
    ensures |FilteredTasks(tasks, f, now)| <= |tasks|
  {
    var d := Staged(tasks, f, now);
    var r := SortBy(d, PriorityRank, CreatedAt);
    StagedMembers(tasks, f, now);
    forall t
      ensures t in r <==> t in d
    {
      assert t in r <==> t in multiset(r);
    }
  }

  // ---------------------------------------------------------------------
  // The component
  // ---------------------------------------------------------------------

  /** The task manager's state; `store` is the browser storage it reads and writes. */
  class TaskManager {
    const store: Store.LocalStore
    var tasks: seq<Task>
    var draft: Draft
    var editingTaskId: Option<string>
    var showEditDialog: bool
    var filters: Filters

    /** Mounting: the list is loaded from storage and the form is empty. */
    constructor (s: Store.LocalStore)
      ensures store == s && tasks == s.tasks
      ensures draft == Draft("", "", 0, Medium, false, "", false, false, Moderate, false, Daily, 1, [])
      ensures editingTaskId.None? && !showEditDialog && filters == DefaultFilters
    {
      store := s;
      tasks := s.tasks;
      draft := Draft("", "", 0, Medium, false, "", false, false, Moderate, false, Daily, 1, []);
      editingTaskId := None;
      showEditDialog := false;
      filters := DefaultFilters;
    }

    /** The dialog state and the filters are as they were. */
    twostate predicate FormUnchanged()
      reads this
    {
      draft == old(draft) && editingTaskId == old(editingTaskId)
      && showEditDialog == old(showEditDialog) && filters == old(filters)
    }

    /** `saveTasks`: storage and the component hold the same list. */
    method SaveTasks(ts: seq<Task>)
      modifies this, store
      ensures tasks == ts && store.tasks == ts && store.OnlyChanged(Store.TasksKey) && FormUnchanged()
    {
      store.SaveTasks(ts);
      tasks := ts;
    }

    /**
      * `toggleTask(id)` at `now`.  An unknown id does nothing.  An
      * incomplete task is completed through storage (a spaced or recurring
      * task already done today is refused and nothing changes) and the list
      * is reloaded; a completed one is unchecked by its kind's branch and
      * the list saved.
      */
    method ToggleTask(id: string, now: int)
      modifies this, store
      ensures FormUnchanged() && store.OnlyChanged(Store.TasksKey)
      ensures IndexOf(old(tasks), id).None? ==> tasks == old(tasks) && store.tasks == old(store.tasks)
      ensures IndexOf(old(tasks), id).Some? ==>
        var t := old(tasks)[IndexOf(old(tasks), id).value];
        if !t.completed then
          if CheckRefused(t, now) then
            tasks == old(tasks) && store.tasks == old(store.tasks)
          else
            store.tasks == AfterCompletion(old(store.tasks), id, now) && tasks == store.tasks
        else
          tasks == UncheckAll(old(tasks), id, ModeOf(t)) && store.tasks == tasks
    {
      var index := IndexOf(tasks, id);
      if index.None? {
        return;
      }
      var task := tasks[index.value];
      if !task.completed {
        if SpacedOn(task) {
          if !CanCompleteSpaced(task, now) {
            return;
          }
          store.UpdateTaskAfterCompletion(id, now);
          tasks := store.tasks;
          return;
        }
        if RecurringOn(task) {
          if !CanCompleteRecurring(task, now) {
            return;
          }
        }
        store.UpdateTaskAfterCompletion(id, now);
        tasks := store.tasks;
      } else {
        SaveTasks(UncheckAll(tasks, id, ModeOf(task)));
      }
    }

    /** `startEditing(task)`: the form shows the task. */
    method StartEditing(t: Task)
      modifies this
      ensures draft == DraftOf(t) && editingTaskId == Some(t.id) && showEditDialog
      ensures tasks == old(tasks) && filters == old(filters)
    {
      draft := DraftOf(t);
      editingTaskId := Some(t.id);
      showEditDialog := true;
    }

    /** The "Add Task" button: an empty form for a new task. */
    method StartAdding()
      modifies this
      ensures draft == BlankDraft && editingTaskId.None? && showEditDialog
      ensures tasks == old(tasks) && filters == old(filters)
    {
      draft := BlankDraft;
      editingTaskId := None;
      showEditDialog := true;
    }

    /** The spaced-repetition switch's handler. */
    method SetSpaced(checked: bool)
      modifies this
      ensures draft == SpacedSwitched(old(draft), checked)
      ensures !(draft.spacedOn && draft.recurringOn)
      ensures tasks == old(tasks) && editingTaskId == old(editingTaskId) && showEditDialog == old(showEditDialog)
      ensures filters == old(filters)
    {
      draft := draft.(spacedOn := checked);
      if checked && draft.recurringOn {
        draft := draft.(recurringOn := false);
      }
    }

    /** The recurring switch's handler. */
    method SetRecurring(checked: bool)
      modifies this
      ensures draft == RecurringSwitched(old(draft), checked)
      ensures !(draft.spacedOn && draft.recurringOn)
      ensures tasks == old(tasks) && editingTaskId == old(editingTaskId) && showEditDialog == old(showEditDialog)
      ensures filters == old(filters)
    {
      draft := draft.(recurringOn := checked);
      if checked && draft.spacedOn {
        draft := draft.(spacedOn := false);
      }
    }

    /**
      * `saveEdit` at `now`, with `newId` for a new task.  A rejected form
      * changes nothing and the dialog stays open; otherwise the list is
      * saved and the dialog closes.
      */
    method SaveEdit(now: int, newId: string)
      modifies this, store
      ensures store.OnlyChanged(Store.TasksKey) && draft == old(draft) && filters == old(filters)
      ensures DraftRejected(old(draft)) ==>
        tasks == old(tasks) && store.tasks == old(store.tasks)
        && editingTaskId == old(editingTaskId) && showEditDialog == old(showEditDialog)
      ensures !DraftRejected(old(draft)) ==>
        tasks == SavedTasks(old(tasks), old(draft), old(editingTaskId), newId, now) && store.tasks == tasks
        && editingTaskId.None? && !showEditDialog
    {
      if Trim(draft.title) == "" {
        return;
      }
      if draft.recurringOn && draft.pattern == SpecificDays && |draft.daysOfWeek| == 0 {
        return;
      }
      SaveDraft(now, newId);
    }

    /** The accepted branch of `saveEdit`: the draft is saved and the dialog closes. */
    method SaveDraft(now: int, newId: string)
      modifies this, store
      ensures store.OnlyChanged(Store.TasksKey) && draft == old(draft) && filters == old(filters)
      ensures tasks == SavedTasks(old(tasks), old(draft), old(editingTaskId), newId, now) && store.tasks == tasks
      ensures editingTaskId.None? && !showEditDialog
    {
      SaveTasks(SavedTasks(tasks, draft, editingTaskId, newId, now));
      editingTaskId := None;
      showEditDialog := false;
    }

    /** `cancelEdit`. */
    method CancelEdit()
      modifies this
      ensures editingTaskId.None? && !showEditDialog
      ensures tasks == old(tasks) && draft == old(draft) && filters == old(filters)
    {
      editingTaskId := None;
      showEditDialog := false;
    }

    /** `deleteTask(id)`: an unknown id saves nothing. */
    method DeleteTask(id: string)
      modifies this, store
      ensures FormUnchanged() && store.OnlyChanged(Store.TasksKey)
      ensures IndexOf(old(tasks), id).None? ==> tasks == old(tasks) && store.tasks == old(store.tasks)
      ensures IndexOf(old(tasks), id).Some? ==> tasks == WithoutTask(old(tasks), id) && store.tasks == tasks
    {
      if IndexOf(tasks, id).None? {
        return;
      }
      SaveTasks(WithoutTask(tasks, id));
    }

    /** `clearFinishedTasks`: returns how many were removed; with none completed it saves nothing. */
    method ClearFinishedTasks() returns (removed: nat)
      modifies this, store
      ensures FormUnchanged() && store.OnlyChanged(Store.TasksKey)
      ensures removed == Count(old(tasks), IsFinished)
      ensures removed == 0 ==> tasks == old(tasks) && store.tasks == old(store.tasks)
      ensures removed > 0 ==> tasks == Unfinished(old(tasks)) && store.tasks == tasks
    {
      removed := Count(tasks, IsFinished);
      if removed == 0 {
        return;
      }
      SaveTasks(Unfinished(tasks));
    }

    /**
      * `getFilteredTasks()` at `now`: the list on screen.  When every stage
      * passes everything, `filtered` is the state array itself, and
      * `filtered.sort(...)` reorders the state in place; the next handler
      * that saves `tasks` then stores that order.
      */
    method GetFilteredTasks(now: int) returns (filtered: seq<Task>)
      modifies this
      ensures filtered == FilteredTasks(old(tasks), filters, now)
      ensures SortsState(filters) ==> tasks == filtered
      ensures !SortsState(filters) ==> tasks == old(tasks)
      ensures FormUnchanged()
    {
      filtered := FilteredTasks(tasks, filters, now);
      if SortsState(filters) {
        tasks := filtered;
      }
    }

    /** `totalTasks`: neither completed nor archived. */
    function ActiveCount(): (n: nat)
      reads this
      ensures n <= |tasks|
    {
      Count(tasks, IsActive)
    }
  }
}
