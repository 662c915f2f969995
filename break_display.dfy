/**
  * components/timer/break-reminder-display.tsx: the panel of reminders
  * shown during a break, the set of reminders ticked off in it, and the
  * report of which reminders were shown.
  */
module BreakDisplay {

  import opened Options
  import opened Domain
  import opened Seqs
  import opened Reminders
  import opened ReminderManager
  import Store

  /** The elements of a list, as a set. */
  function Elements(s: seq<string>): set<string>
  {
    set x | x in s
  }

  /**
    * `new Set(list)` read back in iteration order: the first occurrence of
    * each id, in order.
    */
  function Dedup(s: seq<string>): (r: seq<string>)
    ensures Distinct(r) && Elements(r) == Elements(s)
    ensures Distinct(s) ==> r == s
    decreases |s|
  {
    if s == [] then []
    else
      var front := Dedup(s[..|s| - 1]);
      var last := s[|s| - 1];
      assert s == s[..|s| - 1] + [last];
      assert Elements(s) == Elements(s[..|s| - 1]) + {last};
      assert Elements(front + [last]) == Elements(front) + {last};
      if last in front then front else front + [last]
  }

  /**
    * `toggleReminderComplete`'s set update, in iteration order: a present
    * id is deleted, an absent one added at the end.
    */
  function ToggledId(s: seq<string>, id: string): (r: seq<string>)
    ensures id in r <==> id !in s
    ensures forall x :: x != id ==> (x in r <==> x in s)
    ensures Distinct(s) ==> Distinct(r)
  {
    FilterIn(s, (x: string) => x != id);
    if id in s then
      assert Distinct(s) ==> Distinct(Filter(s, (x: string) => x != id)) by {
        if Distinct(s) {
          FilterDistinct(s, (x: string) => x != id);
        }
      }
      Filter(s, (x: string) => x != id)
    else s + [id]
  }

  /** Ticking the same reminder twice leaves the same set of ticked reminders. */
  lemma ToggleTwiceRestores(s: seq<string>, id: string)
    ensures Elements(ToggledId(ToggledId(s, id), id)) == Elements(s)
    ensures id !in s ==> ToggledId(ToggledId(s, id), id) == s
  {
    if id !in s {
      FilterAll(s, (x: string) => x != id);
      assert ToggledId(s, id) == s + [id];
      FilterAppend(s, [id], (x: string) => x != id);
    }
  }

  /** `updateReminderLastShown` for each of the shown reminders, in order. */
  method StampEach(store: Store.LocalStore, shown: seq<BreakReminder>, now: int)
    modifies store
    ensures store.reminders == StampAll(old(store.reminders), Ids(shown), now)
    ensures store.OnlyChanged(Store.RemindersKey)
  {
    ghost var reminders := store.reminders;
    for i := 0 to |shown|
      invariant store.reminders == StampAll(reminders, Ids(shown[..i]), now)
      invariant store.OnlyChanged(Store.RemindersKey)
    {
      assert shown[..i + 1] == shown[..i] + [shown[i]];
      StampOneMore(reminders, shown[..i], shown[i], now);
      store.SaveBreakReminders(StampLastShown(store.reminders, shown[i].id, now));
    }
    assert shown[..|shown|] == shown;
  }

  /** The panel's state; `sessionId` is the prop (empty when not given). */
  class BreakReminderDisplay {
    const store: Store.LocalStore
    const sessionId: string
    var breakType: BreakKind
    var isVisible: bool
    var reminders: seq<BreakReminder>
    /** The `completedReminders` set, in iteration order. */
    var completed: seq<string>
    var hasReportedShown: bool

    constructor (s: Store.LocalStore, breakType: BreakKind, sessionId: string)
      ensures store == s && this.sessionId == sessionId && this.breakType == breakType
      ensures !isVisible && reminders == [] && completed == [] && !hasReportedShown
    {
      store := s;
      this.sessionId := sessionId;
      this.breakType := breakType;
      isVisible := false;
      reminders := [];
      completed := [];
      hasReportedShown := false;
    }

    /**
      * The panel opens for `bt` at `now`: it shows the enabled reminders for
      * this break that are due, loads the ticked ids of the current break,
      * and stamps each shown reminder.
      */
    method Open(bt: BreakKind, now: int)
      modifies this, store
      ensures isVisible && breakType == bt && !hasReportedShown
      ensures reminders == Shown(old(store.reminders), bt, now)
      ensures completed == Dedup(old(store.currentBreakCompleted)) && Distinct(completed)
      ensures store.reminders == StampAll(old(store.reminders), Ids(reminders), now)
      ensures store.OnlyChanged(Store.RemindersKey)
    {
      isVisible := true;
      breakType := bt;
      var allReminders := store.reminders;
      var filteredReminders := RemindersForType(allReminders, bt);
      var visibleReminders := Filter(filteredReminders, Due(bt, now));
      reminders := visibleReminders;
      completed := Dedup(store.currentBreakCompleted);
      hasReportedShown := false;
      StampEach(store, visibleReminders, now);
    }

    /** The panel is hidden: the next opening may report again. */
    method Close()
      modifies this
      ensures !isVisible && !hasReportedShown
      ensures reminders == old(reminders) && completed == old(completed) && breakType == old(breakType)
    {
      isVisible := false;
      hasReportedShown := false;
    }

    /**
      * The reporting effect, where `hasCallback` says whether
      * `onRemindersCompleted` was given: the shown ids are reported once,
      * and not again until the panel is hidden.
      */
    method ReportShown(hasCallback: bool) returns (report: Option<seq<string>>)
      modifies this
      ensures report.Some? <==> old(isVisible) && |reminders| > 0 && !old(hasReportedShown) && hasCallback
      ensures report.Some? ==> report.value == Ids(reminders) && hasReportedShown
      ensures report.None? ==> hasReportedShown == old(hasReportedShown)
      ensures isVisible == old(isVisible) && reminders == old(reminders) && completed == old(completed)
      ensures breakType == old(breakType)
    {
      if isVisible && |reminders| > 0 && !hasReportedShown && hasCallback {
        report := Some(Ids(reminders));
        hasReportedShown := true;
      } else {
        report := None;
      }
    }

    /** A `breakReminderCompleted` event from a notification's Done action, heard while visible. */
    method OnCompletedEvent(reminderId: string)
      modifies this
      ensures old(isVisible) ==> completed == AddedOnce(old(completed), reminderId)
      ensures !old(isVisible) ==> completed == old(completed)
      ensures Distinct(old(completed)) ==> Distinct(completed)
      ensures isVisible == old(isVisible) && reminders == old(reminders) && hasReportedShown == old(hasReportedShown)
      ensures breakType == old(breakType)
    {
      if !isVisible {
        return;
      }
      completed := AddedOnce(completed, reminderId);
    }

    /**
      * `toggleReminderComplete(id)` at `now`: the id leaves or joins the
      * ticked set; a completion is recorded only when it joins; the ticked
      * list is persisted as it now is, and reported with the shown ids.
      */
    method ToggleReminderComplete(reminderId: string, completionId: string, now: int)
      returns (completedIds: seq<string>, shownIds: seq<string>)
      modifies this, store
      ensures completed == ToggledId(old(completed), reminderId)
      ensures reminderId in old(completed) ==> store.completions == old(store.completions)
      ensures reminderId !in old(completed) ==>
        store.completions == Store.LoggedCompletion(old(store.completions),
          CreateCompletion(completionId, reminderId, SessionIdOr(sessionId, now), breakType, true, now), now)
      ensures store.currentBreakCompleted == completed
      ensures completedIds == completed && shownIds == Ids(reminders)
      ensures store.OnlyChangedAmong({Store.CompletionsKey, Store.CurrentBreakKey})
      ensures isVisible == old(isVisible) && reminders == old(reminders) && hasReportedShown == old(hasReportedShown)
      ensures breakType == old(breakType)
    {
      var currentSessionId := SessionIdOr(sessionId, now);
      if reminderId !in completed {
        store.AddBreakReminderCompletion(CreateCompletion(completionId, reminderId, currentSessionId, breakType, true, now), now);
      }
      completed := ToggledId(completed, reminderId);
      store.SaveCurrentBreakCompleted(completed);
      completedIds := completed;
      shownIds := Ids(reminders);
    }
  }
}
