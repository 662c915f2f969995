/**
  * components/tasks/break-reminder-manager.tsx: the reminders shown when a
  * break starts (with the Done action of their notification), and the
  * manager screen that seeds, edits, toggles and deletes reminders and
  * their custom categories.
  */
module ReminderManager {

  import opened Options
  import opened Domain
  import opened Seqs
  import opened Text
  import opened Reminders
  import Store

  /** The ids of a list of reminders, in order. */
  function Ids(rs: seq<BreakReminder>): (r: seq<string>)
    ensures |r| == |rs| && forall i :: 0 <= i < |rs| ==> r[i] == rs[i].id
  {
    Map(rs, (x: BreakReminder) => x.id)
  }

  /** `updateReminderLastShown` called for each id of `ids` in turn. */
  function StampAll(reminders: seq<BreakReminder>, ids: seq<string>, now: int): (r: seq<BreakReminder>)
    ensures |r| == |reminders|
    decreases |ids|
  {
    if ids == [] then reminders
    else StampLastShown(StampAll(reminders, ids[..|ids| - 1], now), ids[|ids| - 1], now)
  }

  /** Stamping one more id after a list of them. */
  lemma StampOneMore(reminders: seq<BreakReminder>, shown: seq<BreakReminder>, r: BreakReminder, now: int)
    ensures StampAll(reminders, Ids(shown + [r]), now) == StampLastShown(StampAll(reminders, Ids(shown), now), r.id, now)
  {
    var ids := Ids(shown + [r]);
    assert ids[..|ids| - 1] == Ids(shown);
  }

  /** After the stamps, exactly the reminders whose id was stamped were last shown at `now`. */
  lemma {:induction false} StampAllMeaning(reminders: seq<BreakReminder>, ids: seq<string>, now: int)
    ensures forall i :: 0 <= i < |reminders| ==>
              StampAll(reminders, ids, now)[i]
              == reminders[i].(lastShown := if reminders[i].id in ids then Some(now) else reminders[i].lastShown)
    decreases |ids|
  {
    if ids != [] {
      var front := ids[..|ids| - 1];
      StampAllMeaning(reminders, front, now);
      assert forall x :: x in ids <==> x in front || x == ids[|ids| - 1] by {
        assert ids == front + [ids[|ids| - 1]];
      }
    }
  }

  /** `shouldShowBreakReminder` for this break at `now`, as a filter predicate. */
  function Due(breakType: BreakKind, now: int): BreakReminder -> bool
  {
    (x: BreakReminder) => ShouldShow(x, breakType, now)
  }

  /** The reminders `showBreakReminders` notifies about: enabled, for this break, and due. */
  function Shown(reminders: seq<BreakReminder>, breakType: BreakKind, now: int): seq<BreakReminder>
  {
    Filter(RemindersForType(reminders, breakType), Due(breakType, now))
  }

  /** Some reminder with this id is shown. */
  predicate ShownId(reminders: seq<BreakReminder>, breakType: BreakKind, now: int, id: string)
  {
    exists j :: 0 <= j < |reminders| && reminders[j].id == id && ShouldShow(reminders[j], breakType, now)
  }

  /**
    * A reminder is shown exactly when it is stored and due under
    * `shouldShowBreakReminder`; the enabled and break-type pre-filter only
    * drops reminders that test would refuse anyway.
    */
  lemma ShownMeaning(reminders: seq<BreakReminder>, breakType: BreakKind, now: int)
    ensures forall x :: x in Shown(reminders, breakType, now) <==> x in reminders && ShouldShow(x, breakType, now)
  {
    var p := (x: BreakReminder) => x.enabled && AppliesTo(x, breakType);
    FilterIn(reminders, p);
    FilterIn(RemindersForType(reminders, breakType), Due(breakType, now));
    forall x | x in reminders && ShouldShow(x, breakType, now)
      ensures x in Shown(reminders, breakType, now)
    {
      ShouldShowRule(x, breakType, now);
    }
  }

  /**
    * Showing the reminders stamps `now` on every reminder sharing an id
    * with a due one, and leaves every other reminder exactly as it was.
    */
  lemma ShowStampsDue(reminders: seq<BreakReminder>, breakType: BreakKind, now: int)
    ensures var r := StampAll(reminders, Ids(Shown(reminders, breakType, now)), now);
            |r| == |reminders|
            && (forall i :: 0 <= i < |reminders| && ShownId(reminders, breakType, now, reminders[i].id) ==>
                  r[i] == reminders[i].(lastShown := Some(now)))
            && (forall i :: 0 <= i < |reminders| && !ShownId(reminders, breakType, now, reminders[i].id) ==>
                  r[i] == reminders[i])
  {
    var ids := Ids(Shown(reminders, breakType, now));
    StampAllMeaning(reminders, ids, now);
    forall i | 0 <= i < |reminders|
      ensures reminders[i].id in ids <==> ShownId(reminders, breakType, now, reminders[i].id)
    {
      ShownIdIff(reminders, breakType, now, reminders[i].id);
    }
  }

  /** An id is among the shown ids exactly when some stored reminder with it is due. */
  lemma ShownIdIff(reminders: seq<BreakReminder>, breakType: BreakKind, now: int, id: string)
    ensures id in Ids(Shown(reminders, breakType, now)) <==> ShownId(reminders, breakType, now, id)
  {
    var shown := Shown(reminders, breakType, now);
    var ids := Ids(shown);
    ShownMeaning(reminders, breakType, now);
    if id in ids {
      var k :| 0 <= k < |ids| && ids[k] == id;
      assert shown[k] in shown;
      var j :| 0 <= j < |reminders| && reminders[j] == shown[k];
      assert reminders[j].id == id && ShouldShow(reminders[j], breakType, now);
    }
    if ShownId(reminders, breakType, now, id) {
      var j :| 0 <= j < |reminders| && reminders[j].id == id && ShouldShow(reminders[j], breakType, now);
      assert reminders[j] in shown;
      var k :| 0 <= k < |shown| && shown[k] == reminders[j];
      assert ids[k] == id;
    }
  }

  /**
    * `showBreakReminders(breakType)` at `now`: each enabled reminder for
    * this break is tested in turn, and each due one is stamped and
    * returned (its notification is shown).
    */
  method ShowBreakReminders(store: Store.LocalStore, breakType: BreakKind, now: int) returns (shown: seq<BreakReminder>)
    modifies store
    ensures shown == Shown(old(store.reminders), breakType, now)
    ensures store.reminders == StampAll(old(store.reminders), Ids(shown), now)
    ensures store.OnlyChanged(Store.RemindersKey)
  {
    var reminders := store.reminders;
    var activeReminders := RemindersForType(reminders, breakType);
    var due := Due(breakType, now);
    shown := [];
    for i := 0 to |activeReminders|
      invariant shown == Filter(activeReminders[..i], due)
      invariant store.reminders == StampAll(reminders, Ids(shown), now)
      invariant store.OnlyChanged(Store.RemindersKey)
    {
      var reminder := activeReminders[i];
      FilterPrefixStep(activeReminders, i, due);
      if ShouldShow(reminder, breakType, now) {
        StampOneMore(reminders, shown, reminder, now);
        store.SaveBreakReminders(StampLastShown(store.reminders, reminder.id, now));
        shown := shown + [reminder];
      }
    }
    assert activeReminders[..|activeReminders|] == activeReminders;
  }

  /** `sessionId || \`session_${Date.now()}\``. */
  function SessionIdOr(sessionId: string, now: int): (r: string)
    ensures sessionId != "" ==> r == sessionId
    ensures sessionId == "" ==> r == "session_" + IntToString(now)
  {
    if sessionId != "" then sessionId else "session_" + IntToString(now)
  }

  /** Adding an id to a list that must not repeat ids: appended only when absent. */
  function AddedOnce(ids: seq<string>, id: string): (r: seq<string>)
    ensures id in r && forall x :: x in r <==> x in ids || x == id
    ensures |ids| <= |r| <= |ids| + 1 && r[..|ids|] == ids
    ensures Distinct(ids) ==> Distinct(r)
  {
    if id in ids then ids else ids + [id]
  }

  /**
    * The Done action of a shown reminder's notification: records a
    * completion, adds the id to the current break's completed list unless
    * it is already there, and stamps the reminder as shown at `now`.
    */
  method Done(store: Store.LocalStore, reminder: BreakReminder, sessionId: string, breakType: BreakKind,
              completionId: string, now: int)
    modifies store
    ensures store.completions == Store.LoggedCompletion(old(store.completions),
              CreateCompletion(completionId, reminder.id, SessionIdOr(sessionId, now), breakType, true, now), now)
    ensures store.currentBreakCompleted == AddedOnce(old(store.currentBreakCompleted), reminder.id)
    ensures store.reminders == StampLastShown(old(store.reminders), reminder.id, now)
    ensures store.OnlyChangedAmong({Store.CompletionsKey, Store.CurrentBreakKey, Store.RemindersKey})
  {
    var currentSessionId := SessionIdOr(sessionId, now);
    store.AddBreakReminderCompletion(CreateCompletion(completionId, reminder.id, currentSessionId, breakType, true, now), now);
    var completedReminders := store.currentBreakCompleted;
    if reminder.id !in completedReminders {
      store.SaveCurrentBreakCompleted(completedReminders + [reminder.id]);
    }
    store.SaveBreakReminders(StampLastShown(store.reminders, reminder.id, now));
  }

  // ---------------------------------------------------------------------
  // The manager screen
  // ---------------------------------------------------------------------

  /** Drops every reminder titled "Eye Rest". */
  function WithoutEyeRest(rs: seq<BreakReminder>): seq<BreakReminder>
  {
    Filter(rs, (x: BreakReminder) => x.title != "Eye Rest")
  }

  /** The reminders left have other titles, and are all the reminders with other titles. */
  lemma WithoutEyeRestMeaning(rs: seq<BreakReminder>)
    ensures forall x :: x in WithoutEyeRest(rs) <==> x in rs && x.title != "Eye Rest"
    ensures |WithoutEyeRest(rs)| == |rs| ==> WithoutEyeRest(rs) == rs
  {
    FilterIn(rs, (x: BreakReminder) => x.title != "Eye Rest");
    FilterSameLength(rs, (x: BreakReminder) => x.title != "Eye Rest");
  }

  /** The add/edit form. */
  datatype ReminderForm = ReminderForm(
    title: string,
    description: string,
    breakType: ReminderBreakType,
    category: ReminderCategory,
    selectedCustomCategory: string,
    enabled: bool,
    frequency: Frequency,
    customFrequency: CustomFreq)

  /** `resetForm`. */
  const BlankForm := ReminderForm("", "", Both, CustomCategory, "", true, EveryBreak, CustomFreq(1, Hours))

  /** `handleEdit` fills the form from a reminder. */
  function FormOf(r: BreakReminder): (f: ReminderForm)
    ensures f.title == r.title && f.description == r.description && f.breakType == r.breakType
    ensures f.category == r.category && f.enabled == r.enabled && f.frequency == r.frequency
    ensures f.selectedCustomCategory == (if r.customCategory.Some? then r.customCategory.value else "")
    ensures f.customFrequency == (if r.customFrequency.Some? then r.customFrequency.value else CustomFreq(1, Hours))
  {
    ReminderForm(r.title, r.description, r.breakType, r.category,
                 if r.customCategory.Some? then r.customCategory.value else "",
                 r.enabled, r.frequency,
                 if r.customFrequency.Some? then r.customFrequency.value else CustomFreq(1, Hours))
  }

  /** The fields `handleSave` writes; an absent optional field is one the object literal leaves out. */
  datatype ReminderData = ReminderData(
    title: string,
    description: string,
    breakType: ReminderBreakType,
    category: ReminderCategory,
    customCategory: Option<string>,
    enabled: bool,
    frequency: Frequency,
    customFrequency: Option<CustomFreq>)

  /**
    * `reminderData`: trimmed texts; a custom category only for the custom
    * category with a selection made; a custom frequency only for the custom
    * frequency.
    */
  function DataOf(f: ReminderForm): (d: ReminderData)
    ensures d.title == Trim(f.title) && d.description == Trim(f.description)
    ensures d.breakType == f.breakType && d.category == f.category && d.enabled == f.enabled && d.frequency == f.frequency
    ensures d.customCategory.Some? <==> f.category == CustomCategory && f.selectedCustomCategory != ""
    ensures d.customCategory.Some? ==> d.customCategory.value == f.selectedCustomCategory
    ensures d.customFrequency.Some? <==> f.frequency == CustomFrequency
    ensures d.customFrequency.Some? ==> d.customFrequency.value == f.customFrequency
  {
    ReminderData(Trim(f.title), Trim(f.description), f.breakType, f.category,
                 if f.category == CustomCategory && f.selectedCustomCategory != "" then Some(f.selectedCustomCategory) else None,
                 f.enabled, f.frequency,
                 if f.frequency == CustomFrequency then Some(f.customFrequency) else None)
  }

  /** `{...reminder, ...reminderData}`: the data's fields over the reminder's; absent ones keep the reminder's. */
  function Merged(r: BreakReminder, d: ReminderData): BreakReminder
  {
    r.(title := d.title, description := d.description, breakType := d.breakType, category := d.category,
       customCategory := if d.customCategory.Some? then d.customCategory else r.customCategory,
       enabled := d.enabled, frequency := d.frequency,
       customFrequency := if d.customFrequency.Some? then d.customFrequency else r.customFrequency)
  }

  /** The new reminder: `id` is `Date.now().toString()`, created now and never shown. */
  function Created(d: ReminderData, now: int): BreakReminder
  {
    BreakReminder(IntToString(now), d.title, d.description, d.breakType, d.category, d.customCategory,
                  d.enabled, d.frequency, d.customFrequency, now, None)
  }

  /** `editingId` is truthy. */
  predicate Editing(editingId: Option<string>)
  {
    editingId.Some? && editingId.value != ""
  }

  /** The edit applied to each reminder: the one with the edited id takes the form's data. */
  function MergeInto(id: string, d: ReminderData): BreakReminder -> BreakReminder
  {
    (x: BreakReminder) => if x.id == id then Merged(x, d) else x
  }

  /** The list `handleSave` saves for a form whose title is not blank. */
  function SavedReminders(reminders: seq<BreakReminder>, f: ReminderForm, editingId: Option<string>, now: int): seq<BreakReminder>
  {
    if Editing(editingId) then Map(reminders, MergeInto(editingId.value, DataOf(f)))
    else reminders + [Created(DataOf(f), now)]
  }

  /**
    * Editing rewrites only the reminders with the edited id, each keeping
    * its id, creation time and last showing and taking the form's trimmed
    * texts and settings; adding appends one reminder, enabled as the form
    * says, never shown, whose id is the decimal `now`.
    */
  lemma SavedRemindersMeaning(reminders: seq<BreakReminder>, f: ReminderForm, editingId: Option<string>, now: int)
    ensures var r := SavedReminders(reminders, f, editingId, now);
      (Editing(editingId) ==>
         |r| == |reminders|
         && (forall i :: 0 <= i < |reminders| && reminders[i].id != editingId.value ==> r[i] == reminders[i])
         && (forall i :: 0 <= i < |reminders| && reminders[i].id == editingId.value ==>
               r[i].id == reminders[i].id && r[i].createdAt == reminders[i].createdAt
               && r[i].lastShown == reminders[i].lastShown
               && r[i].title == Trim(f.title) && r[i].description == Trim(f.description)
               && r[i].enabled == f.enabled && r[i].frequency == f.frequency
               && (f.frequency == CustomFrequency ==> r[i].customFrequency == Some(f.customFrequency))
               && (f.frequency != CustomFrequency ==> r[i].customFrequency == reminders[i].customFrequency)))
      && (!Editing(editingId) ==>
         |r| == |reminders| + 1 && r[..|reminders|] == reminders
         && r[|reminders|].id == IntToString(now) && r[|reminders|].createdAt == now
         && r[|reminders|].lastShown.None? && r[|reminders|].title == Trim(f.title)
         && (r[|reminders|].customCategory.Some? <==> f.category == CustomCategory && f.selectedCustomCategory != "")
         && (r[|reminders|].customFrequency.Some? <==> f.frequency == CustomFrequency))
  {
  }

  /**
    * Opening a reminder for editing and saving without changes gives the
    * reminder back, when its texts carry no surrounding white space and a
    * custom frequency has its interval set.
    */
  lemma EditUnchangedKeepsReminder(r: BreakReminder)
    requires Trim(r.title) == r.title && Trim(r.description) == r.description
    requires r.frequency == CustomFrequency ==> r.customFrequency.Some?
    ensures Merged(r, DataOf(FormOf(r))) == r
  {
  }

  /** `reminders.filter(r => r.id !== id)`. */
  function WithoutReminder(rs: seq<BreakReminder>, id: string): seq<BreakReminder>
  {
    Filter(rs, (x: BreakReminder) => x.id != id)
  }

  /** Deleting removes every reminder with the id, keeps the others in order, and a missing id changes nothing. */
  lemma WithoutReminderMeaning(rs: seq<BreakReminder>, id: string)
    ensures forall x :: x in WithoutReminder(rs, id) <==> x in rs && x.id != id
    ensures (forall i :: 0 <= i < |rs| ==> rs[i].id != id) ==> WithoutReminder(rs, id) == rs
  {
    FilterIn(rs, (x: BreakReminder) => x.id != id);
    if forall i :: 0 <= i < |rs| ==> rs[i].id != id {
      FilterAll(rs, (x: BreakReminder) => x.id != id);
    }
  }

  /** `toggleReminder(id)`: the reminders with the id switch `enabled`. */
  function Toggled(rs: seq<BreakReminder>, id: string): (r: seq<BreakReminder>)
    ensures |r| == |rs|
    ensures forall i :: 0 <= i < |rs| && rs[i].id != id ==> r[i] == rs[i]
    ensures forall i :: 0 <= i < |rs| && rs[i].id == id ==> r[i].enabled == !rs[i].enabled && r[i].(enabled := rs[i].enabled) == rs[i]
  {
    Map(rs, (x: BreakReminder) => if x.id == id then x.(enabled := !x.enabled) else x)
  }

  /** Toggling the same reminder twice restores the list. */
  lemma ToggleTwiceRestores(rs: seq<BreakReminder>, id: string)
    ensures Toggled(Toggled(rs, id), id) == rs
  {
    var r := Toggled(Toggled(rs, id), id);
    forall i | 0 <= i < |rs|
      ensures r[i] == rs[i]
    {
      assert Toggled(rs, id)[i].id == rs[i].id;
    }
  }

  /** Some reminder has this custom category. */
  function UsingCategory(rs: seq<BreakReminder>, categoryId: string): seq<BreakReminder>
  {
    Filter(rs, (x: BreakReminder) => x.customCategory == Some(categoryId))
  }

  /** The category is in use exactly when some reminder names it as its custom category. */
  lemma UsingCategoryIff(rs: seq<BreakReminder>, categoryId: string)
    ensures |UsingCategory(rs, categoryId)| > 0 <==> exists i :: 0 <= i < |rs| && rs[i].customCategory == Some(categoryId)
  {
    var p := (x: BreakReminder) => x.customCategory == Some(categoryId);
    FilterIn(rs, p);
    if |UsingCategory(rs, categoryId)| > 0 {
      assert UsingCategory(rs, categoryId)[0] in rs;
    }
    if exists i :: 0 <= i < |rs| && rs[i].customCategory == Some(categoryId) {
      var i :| 0 <= i < |rs| && rs[i].customCategory == Some(categoryId);
      assert rs[i] in UsingCategory(rs, categoryId);
    }
  }

  /** Some category in the list has the id. */
  predicate HasCategory(cats: seq<Category>, id: string)
  {
    exists i :: 0 <= i < |cats| && cats[i].id == id
  }

  /** A unit's name, plural: `'minutes' | 'hours' | 'breaks'`. */
  function UnitText(u: FrequencyUnit): (s: string)
    ensures |s| >= 2 && s[|s| - 1] == 's'
  {
    match u
    case Minutes => "minutes"
    case Hours => "hours"
    case Breaks => "breaks"
  }

  /** `getFrequencyDisplayText`. */
  function FrequencyText(r: BreakReminder): (s: string)
    ensures r.frequency == EveryBreak ==> s == "Every break"
    ensures r.frequency == Every30Min ==> s == "Every 30 minutes"
    ensures r.frequency == Hourly ==> s == "Every hour"
    ensures r.frequency == Every2Hours ==> s == "Every 2 hours"
    ensures r.frequency == Every3Hours ==> s == "Every 3 hours"
    ensures r.frequency == CustomFrequency && r.customFrequency.None? ==> s == "Custom"
  {
    match r.frequency
    case EveryBreak => "Every break"
    case Every30Min => "Every 30 minutes"
    case Hourly => "Every hour"
    case Every2Hours => "Every 2 hours"
    case Every3Hours => "Every 3 hours"
    case CustomFrequency =>
      if r.customFrequency.Some? then
        var interval := r.customFrequency.value.interval;
        var unit := UnitText(r.customFrequency.value.unit);
        "Every " + IntToString(interval) + " " + (if interval == 1 then unit[..|unit| - 1] else unit)
      else "Custom"
  }

  /**
    * A custom frequency reads "Every", the interval, and the unit, which
    * ends in "s" exactly when the interval is not 1 (the singular drops the
    * plural's last letter).
    */
  lemma CustomFrequencyText(r: BreakReminder)
    requires r.frequency == CustomFrequency && r.customFrequency.Some?
    ensures var c := r.customFrequency.value;
            var s := FrequencyText(r);
            var head := "Every " + IntToString(c.interval) + " ";
            |head| < |s| && s[..|head|] == head
            && s[|head|..] == UnitText(c.unit)[..|s| - |head|]
            && (s[|s| - 1] == 's' <==> c.interval != 1)
  {
    var c := r.customFrequency.value;
    var unit := UnitText(c.unit);
    var head := "Every " + IntToString(c.interval) + " ";
    var w := if c.interval == 1 then unit[..|unit| - 1] else unit;
    assert FrequencyText(r) == head + w;
    assert (head + w)[|head|..] == w;
    if c.interval == 1 {
      match c.unit
      case Minutes => assert w == "minute";
      case Hours => assert w == "hour";
      case Breaks => assert w == "break";
    }
  }

  /** The example of the interface: one hour reads "Every 1 hour". */
  lemma OneHourText(r: BreakReminder)
    requires r.frequency == CustomFrequency && r.customFrequency == Some(CustomFreq(1, Hours))
    ensures FrequencyText(r) == "Every 1 hour"
  {
    assert IntToString(1) == "1";
  }

  /** The manager screen's state. */
  class BreakReminderManager {
    const store: Store.LocalStore
    var reminders: seq<BreakReminder>
    var categories: seq<Category>
    var showAddDialog: bool
    var showCategoryDialog: bool
    var editingId: Option<string>
    var form: ReminderForm
    var newCategoryName: string

    constructor (s: Store.LocalStore)
      ensures store == s && reminders == [] && categories == [] && !showAddDialog && !showCategoryDialog
      ensures editingId.None? && form == BlankForm && newCategoryName == ""
    {
      store := s;
      reminders := [];
      categories := [];
      showAddDialog := false;
      showCategoryDialog := false;
      editingId := None;
      form := BlankForm;
      newCategoryName := "";
    }

    /** Only the reminder list on screen changes. */
    twostate predicate OnlyRemindersChanged()
      reads this
    {
      categories == old(categories) && showAddDialog == old(showAddDialog)
      && showCategoryDialog == old(showCategoryDialog) && editingId == old(editingId)
      && form == old(form) && newCategoryName == old(newCategoryName)
    }

    /**
      * `loadReminders`, with the ids and time of the built-in reminders as
      * parameters: an empty store is seeded with the four defaults;
      * otherwise every "Eye Rest" reminder is dropped, and the store is
      * written only when one was.
      */
    method LoadReminders(defaultIds: seq<string>, now: int)
      requires |defaultIds| == 4
      modifies this, store
      ensures old(store.reminders) == [] ==> reminders == DefaultBreakReminders(defaultIds, now)
      ensures old(store.reminders) != [] ==> reminders == WithoutEyeRest(old(store.reminders))
      ensures store.reminders == reminders && store.OnlyChanged(Store.RemindersKey)
      ensures old(store.reminders) != [] && |reminders| == |old(store.reminders)| ==> unchanged(store)
      ensures OnlyRemindersChanged()
    {
      var existingReminders := store.reminders;
      if |existingReminders| == 0 {
        var defaultReminders := DefaultBreakReminders(defaultIds, now);
        store.SaveBreakReminders(defaultReminders);
        reminders := defaultReminders;
      } else {
        var filteredReminders := WithoutEyeRest(existingReminders);
        WithoutEyeRestMeaning(existingReminders);
        if |filteredReminders| != |existingReminders| {
          store.SaveBreakReminders(filteredReminders);
          reminders := filteredReminders;
        } else {
          reminders := existingReminders;
        }
      }
    }

    /** `loadCategories`: the built-in categories (with the given ids) merged with the stored ones. */
    method LoadCategories(defaultIds: seq<string>, now: int)
      requires |defaultIds| == 5
      modifies this
      ensures categories == Store.MergeByName(Store.DefaultCategories(Store.DefaultReminderCategoryNames, defaultIds, now),
                                              store.reminderCategories)
      ensures reminders == old(reminders) && showAddDialog == old(showAddDialog) && showCategoryDialog == old(showCategoryDialog)
      ensures editingId == old(editingId) && form == old(form) && newCategoryName == old(newCategoryName)
    {
      categories := Store.AllCategories(Store.DefaultCategories(Store.DefaultReminderCategoryNames, defaultIds, now),
                                        store.reminderCategories);
    }

    /** `resetForm`. */
    method ResetForm()
      modifies this
      ensures form == BlankForm && editingId.None?
      ensures reminders == old(reminders) && categories == old(categories) && showAddDialog == old(showAddDialog)
      ensures showCategoryDialog == old(showCategoryDialog) && newCategoryName == old(newCategoryName)
    {
      form := BlankForm;
      editingId := None;
    }

    /**
      * `handleSave` at `now`: a blank title changes nothing; otherwise the
      * edited or new reminder is saved, the dialog closes and the form
      * resets.
      */
    method HandleSave(now: int)
      modifies this, store
      ensures Trim(old(form).title) == "" ==> unchanged(this) && unchanged(store)
      ensures Trim(old(form).title) != "" ==>
        reminders == SavedReminders(old(reminders), old(form), old(editingId), now)
        && store.reminders == reminders && store.OnlyChanged(Store.RemindersKey)
        && !showAddDialog && form == BlankForm && editingId.None?
        && categories == old(categories) && showCategoryDialog == old(showCategoryDialog)
        && newCategoryName == old(newCategoryName)
    {
      if Trim(form.title) == "" {
        return;
      }
      var updatedReminders := SavedReminders(reminders, form, editingId, now);
      SaveList(updatedReminders);
    }

    /** The end of `handleSave`: the list is shown and saved, and the dialog closes on a blank form. */
    method SaveList(updatedReminders: seq<BreakReminder>)
      modifies this, store
      ensures reminders == updatedReminders && store.reminders == reminders && store.OnlyChanged(Store.RemindersKey)
      ensures !showAddDialog && form == BlankForm && editingId.None?
      ensures categories == old(categories) && showCategoryDialog == old(showCategoryDialog)
      ensures newCategoryName == old(newCategoryName)
    {
      reminders := updatedReminders;
      store.SaveBreakReminders(updatedReminders);
      showAddDialog := false;
      ResetForm();
    }

    /** `handleEdit(reminder)`: the form holds the reminder and the dialog opens on it. */
    method HandleEdit(r: BreakReminder)
      modifies this
      ensures form == FormOf(r) && editingId == Some(r.id) && showAddDialog
      ensures reminders == old(reminders) && categories == old(categories)
      ensures showCategoryDialog == old(showCategoryDialog) && newCategoryName == old(newCategoryName)
    {
      form := FormOf(r);
      editingId := Some(r.id);
      showAddDialog := true;
    }

    /** `handleDelete(id)`: an unknown id changes nothing; otherwise every reminder with it goes. */
    method HandleDelete(id: string)
      modifies this, store
      ensures (forall i :: 0 <= i < |old(reminders)| ==> old(reminders)[i].id != id) ==> unchanged(this) && unchanged(store)
      ensures (exists i :: 0 <= i < |old(reminders)| && old(reminders)[i].id == id) ==>
        reminders == WithoutReminder(old(reminders), id) && store.reminders == reminders
        && store.OnlyChanged(Store.RemindersKey) && OnlyRemindersChanged()
    {
      if forall i :: 0 <= i < |reminders| ==> reminders[i].id != id {
        return;
      }
      var updatedReminders := WithoutReminder(reminders, id);
      reminders := updatedReminders;
      store.SaveBreakReminders(updatedReminders);
    }

    /** `toggleReminder(id)`. */
    method ToggleReminder(id: string)
      modifies this, store
      ensures reminders == Toggled(old(reminders), id) && store.reminders == reminders
      ensures store.OnlyChanged(Store.RemindersKey) && OnlyRemindersChanged()
    {
      var updatedReminders := Toggled(reminders, id);
      reminders := updatedReminders;
      store.SaveBreakReminders(updatedReminders);
    }

    /**
      * `handleCreateCategory`, with the new category's id and the built-in
      * categories' ids as parameters: a blank name changes nothing;
      * otherwise the trimmed name is stored, the list reloads and the dialog
      * closes.
      */
    method HandleCreateCategory(newId: string, defaultIds: seq<string>, now: int)
      requires |defaultIds| == 5
      modifies this, store
      ensures Trim(old(newCategoryName)) == "" ==> unchanged(this) && unchanged(store)
      ensures Trim(old(newCategoryName)) != "" ==>
        store.reminderCategories == old(store.reminderCategories) + [Category(newId, Trim(old(newCategoryName)), now)]
        && store.OnlyChanged(Store.ReminderCategoriesKey)
        && categories == Store.MergeByName(Store.DefaultCategories(Store.DefaultReminderCategoryNames, defaultIds, now),
                                           store.reminderCategories)
        && !showCategoryDialog && newCategoryName == "" && reminders == old(reminders)
    {
      var name := Trim(newCategoryName);
      if name == "" {
        return;
      }
      SaveNewCategory(Category(newId, name, now), defaultIds, now);
    }

    /** The non-blank branch of `handleCreateCategory`: store the category, reload, close the dialog. */
    method SaveNewCategory(c: Category, defaultIds: seq<string>, now: int)
      requires |defaultIds| == 5
      modifies this, store
      ensures store.reminderCategories == old(store.reminderCategories) + [c]
      ensures store.OnlyChanged(Store.ReminderCategoriesKey)
      ensures categories == Store.MergeByName(Store.DefaultCategories(Store.DefaultReminderCategoryNames, defaultIds, now),
                                              store.reminderCategories)
      ensures !showCategoryDialog && newCategoryName == "" && reminders == old(reminders)
    {
      store.AddBreakReminderCategory(c);
      LoadCategories(defaultIds, now);
      showCategoryDialog := false;
      newCategoryName := "";
    }

    /**
      * `handleDeleteCategory(id)`: nothing happens for a category not on
      * screen, nor while any reminder uses it; otherwise it is deleted from
      * the store and the list reloads.
      */
    method HandleDeleteCategory(categoryId: string, defaultIds: seq<string>, now: int)
      requires |defaultIds| == 5
      modifies this, store
      ensures !HasCategory(old(categories), categoryId) ==> unchanged(this) && unchanged(store)
      ensures (exists i :: 0 <= i < |old(reminders)| && old(reminders)[i].customCategory == Some(categoryId)) ==>
        unchanged(this) && unchanged(store)
      ensures HasCategory(old(categories), categoryId)
              && (forall i :: 0 <= i < |old(reminders)| ==> old(reminders)[i].customCategory != Some(categoryId)) ==>
        store.reminderCategories == Store.WithoutCategory(old(store.reminderCategories), categoryId)
        && store.OnlyChanged(Store.ReminderCategoriesKey)
        && categories == Store.MergeByName(Store.DefaultCategories(Store.DefaultReminderCategoryNames, defaultIds, now),
                                           store.reminderCategories)
        && reminders == old(reminders)
    {
      if !HasCategory(categories, categoryId) {
        return;
      }
      var remindersUsingCategory := UsingCategory(reminders, categoryId);
      UsingCategoryIff(reminders, categoryId);
      if |remindersUsingCategory| > 0 {
        return;
      }
      store.DeleteBreakReminderCategory(categoryId);
      LoadCategories(defaultIds, now);
    }
  }
}
