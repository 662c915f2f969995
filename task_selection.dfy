/**
  * hooks/use-task-selection.ts: which task a focus session works on, and
  * crediting a finished focus session to its task (total and per-day
  * counts, then auto-completion once the estimate is reached).
  */
module TaskSelection {

  import opened Options
  import opened Domain
  import opened Calendar
  import opened Scheduler
  import opened Seqs
  import Store

  /** `tasks.map(t => t.id === id ? {...t, sessionsCompleted: t.sessionsCompleted + 1} : t)`. */
  function Bumped(tasks: seq<Task>, id: string): (r: seq<Task>)
    ensures |r| == |tasks|
    ensures forall i :: 0 <= i < |tasks| ==>
      r[i] == if tasks[i].id == id then tasks[i].(sessionsCompleted := tasks[i].sessionsCompleted + 1) else tasks[i]
  {
    Map(tasks, (t: Task) => if t.id == id then t.(sessionsCompleted := t.sessionsCompleted + 1) else t)
  }

  /** The auto-complete test: an estimate is set and the sessions have reached it. */
  predicate EstimateReached(t: Task)
  {
    t.estimatedSessions > 0 && t.sessionsCompleted >= t.estimatedSessions
  }

  /** Rewriting tasks without touching ids leaves the first index of every id where it was. */
  lemma {:induction false} IndexOfSameIds(a: seq<Task>, b: seq<Task>, id: string)
    requires |a| == |b| && forall i :: 0 <= i < |a| ==> a[i].id == b[i].id
    ensures IndexOf(a, id) == IndexOf(b, id)
    decreases |a|
  {
    if a != [] && a[0].id != id {
      IndexOfSameIds(a[1..], b[1..], id);
    }
  }

  /**
    * The stored list after `completeTaskSession(id)` at `now`: an empty or
    * unknown id changes nothing; otherwise the task's total goes up, then its
    * count for today, and a task whose estimate is now reached is completed
    * through `updateTaskAfterCompletion`.
    */
  function CreditedSession(tasks: seq<Task>, id: string, now: int): seq<Task>
  {
    if id == "" || IndexOf(tasks, id).None? then tasks
    else
      var bumped := Bumped(tasks, id);
      var counted := IncrementDaily(bumped, id, DayOf(now));
      if EstimateReached(bumped[IndexOf(tasks, id).value]) then AfterCompletion(counted, id, now) else counted
  }

  /** Crediting touches only the tasks with that id, and nothing at all for an empty or unknown id. */
  lemma CreditedSessionFrame(tasks: seq<Task>, id: string, now: int)
    ensures var r := CreditedSession(tasks, id, now);
      |r| == |tasks| && forall i :: 0 <= i < |tasks| && tasks[i].id != id ==> r[i] == tasks[i]
    ensures (id == "" || IndexOf(tasks, id).None?) ==> CreditedSession(tasks, id, now) == tasks
  {
    if id != "" && IndexOf(tasks, id).Some? {
      var bumped := Bumped(tasks, id);
      var counted := IncrementDaily(bumped, id, DayOf(now));
      AfterCompletionFrame(counted, id, now);
    }
  }

  /**
    * The first task with the id gains a session and one more session today.
    * Below its estimate it stays otherwise as it was; a plain task that
    * reaches its estimate is completed at `now`, and its total then ends two
    * above where it started, because the completion counts the session once
    * more.
    */
  lemma CreditedSessionMeaning(tasks: seq<Task>, id: string, now: int)
    requires id != "" && IndexOf(tasks, id).Some?
    ensures var i := IndexOf(tasks, id).value;
      var t := tasks[i];
      var u := CreditedSession(tasks, id, now)[i];
      TodaysDailySessions(u, DayOf(now)) == TodaysDailySessions(t, DayOf(now)) + 1
      && (!EstimateReached(t.(sessionsCompleted := t.sessionsCompleted + 1)) ==>
            u.sessionsCompleted == t.sessionsCompleted + 1 && u.completed == t.completed)
      && (EstimateReached(t.(sessionsCompleted := t.sessionsCompleted + 1)) && !SpacedOn(t) && !RecurringOn(t) ==>
            u.sessionsCompleted == t.sessionsCompleted + 2 && u.completed && u.completedAt == Some(now))
  {
    var i := IndexOf(tasks, id).value;
    var t := tasks[i];
    var bumped := Bumped(tasks, id);
    var counted := IncrementDaily(bumped, id, DayOf(now));
    assert bumped[i] == t.(sessionsCompleted := t.sessionsCompleted + 1);
    IndexOfSameIds(tasks, counted, id);
    IncrementDailyCount(bumped, id, DayOf(now), i);
    var r := CreditedSession(tasks, id, now);
    if EstimateReached(bumped[i]) {
      assert r == AfterCompletion(counted, id, now);
      AfterCompletionAt(counted, id, now, i);
      CompletionKeepsDailyCount(counted[i], now);
      if !SpacedOn(t) && !RecurringOn(t) {
        PlainCompletion(counted[i], now);
      }
    } else {
      assert r[i] == counted[i];
    }
  }

  /** The hook's state. */
  class TaskSelection {
    const store: Store.LocalStore
    var selectedTask: Option<Task>
    var showTaskSelector: bool

    constructor (s: Store.LocalStore)
      ensures store == s && selectedTask.None? && !showTaskSelector
    {
      store := s;
      selectedTask := None;
      showTaskSelector := false;
    }

    /** `selectTaskForSession(kind)`: a focus session opens the selector, a break drops the task. */
    method SelectTaskForSession(kind: SessionType)
      modifies this
      ensures kind == Work ==> showTaskSelector && selectedTask == old(selectedTask)
      ensures kind != Work ==> selectedTask.None? && showTaskSelector == old(showTaskSelector)
    {
      if kind == Work {
        showTaskSelector := true;
        return;
      }
      selectedTask := None;
    }

    /** `handleTaskSelect(task)`: the choice is taken and the selector closes. */
    method HandleTaskSelect(task: Option<Task>)
      modifies this
      ensures selectedTask == task && !showTaskSelector
    {
      selectedTask := task;
      showTaskSelector := false;
    }

    /** `resetSelection`. */
    method ResetSelection()
      modifies this
      ensures selectedTask.None? && !showTaskSelector
    {
      selectedTask := None;
      showTaskSelector := false;
    }

    /** `completeTaskSession(id)` at `now`: only the task list in storage changes. */
    method CompleteTaskSession(id: string, now: int)
      modifies store
      ensures store.tasks == CreditedSession(old(store.tasks), id, now) && store.OnlyChanged(Store.TasksKey)
    {
      if id == "" {
        return;
      }
      var tasks := store.tasks;
      var index := IndexOf(tasks, id);
      if index.None? {
        return;
      }
      var updatedTasks := Bumped(tasks, id);
      store.SaveTasks(updatedTasks);
      store.IncrementDailySession(id, DayOf(now));
      IndexOfSameIds(tasks, updatedTasks, id);
      var updatedTask := updatedTasks[index.value];
      if EstimateReached(updatedTask) {
        store.UpdateTaskAfterCompletion(id, now);
      }
    }
  }
}
