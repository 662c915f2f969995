/**
  * The break-reminder scheduler of lib/storage.ts: how often a reminder may
  * be shown, whether it is shown for a break now, the `lastShown` stamp,
  * and the built-in reminders a fresh store is seeded with.
  */
module Reminders {

  import opened Options
  import opened Domain
  import opened Calendar
  import opened Seqs

  /** `calculateReminderFrequency`: the minimum gap between two showings, in ms (0 means every break). */
  function ReminderFrequency(r: BreakReminder): (ms: int)
    ensures r.frequency == EveryBreak ==> ms == 0
    ensures r.frequency == Every30Min ==> ms == 30 * MsPerMinute
    ensures r.frequency == Hourly ==> ms == MsPerHour
    ensures r.frequency == Every2Hours ==> ms == 2 * MsPerHour
    ensures r.frequency == Every3Hours ==> ms == 3 * MsPerHour
    ensures r.frequency == CustomFrequency && r.customFrequency.None? ==> ms == 0
    ensures r.frequency == CustomFrequency && r.customFrequency.Some? ==>
              ms == match r.customFrequency.value.unit
                    case Minutes => r.customFrequency.value.interval * MsPerMinute
                    case Hours => r.customFrequency.value.interval * MsPerHour
                    case Breaks => 0
    ensures r.frequency != CustomFrequency ==> ms >= 0
  {
    match r.frequency
    case EveryBreak => 0
    case Every30Min => 30 * 60 * 1000
    case Hourly => 60 * 60 * 1000
    case Every2Hours => 2 * 60 * 60 * 1000
    case Every3Hours => 3 * 60 * 60 * 1000
    case CustomFrequency =>
      if r.customFrequency.Some? then
        match r.customFrequency.value.unit
        case Minutes => r.customFrequency.value.interval * 60 * 1000
        case Hours => r.customFrequency.value.interval * 60 * 60 * 1000
        case Breaks => 0
      else 0
  }

  /** The reminder is meant for this kind of break: its own kind, or both. */
  predicate AppliesTo(r: BreakReminder, breakType: BreakKind)
  {
    r.breakType == Both || r.breakType == breakType
  }

  /** Shown on every break regardless of time: every-break, or a custom frequency counted in breaks. */
  predicate EveryBreakRule(r: BreakReminder)
  {
    r.frequency == EveryBreak
    || (r.frequency == CustomFrequency && r.customFrequency.Some? && r.customFrequency.value.unit == Breaks)
  }

  /** `shouldShowBreakReminder(reminder, breakType)` at time `now`. */
  predicate ShouldShow(r: BreakReminder, breakType: BreakKind, now: int)
  {
    if !r.enabled then false
    else if r.breakType != Both && r.breakType != breakType then false
    else if r.frequency == EveryBreak then true
    else if r.frequency == CustomFrequency && r.customFrequency.Some? && r.customFrequency.value.unit == Breaks then true
    else
      var interval := ReminderFrequency(r);
      if interval == 0 then true
      else if !IsSet(r.lastShown) then true
      else now - r.lastShown.value >= interval
  }

  /**
    * A disabled reminder or one for the other kind of break is never shown;
    * an applicable one is always shown when it runs on every break, has a
    * zero interval or was never shown, and otherwise exactly when its
    * interval has passed since it was last shown.
    */
  lemma ShouldShowRule(r: BreakReminder, breakType: BreakKind, now: int)
    ensures !r.enabled || !AppliesTo(r, breakType) ==> !ShouldShow(r, breakType, now)
    ensures (r.enabled && AppliesTo(r, breakType)
             && (EveryBreakRule(r) || ReminderFrequency(r) == 0 || !IsSet(r.lastShown)))
            ==> ShouldShow(r, breakType, now)
    ensures (r.enabled && AppliesTo(r, breakType)
             && !EveryBreakRule(r) && ReminderFrequency(r) != 0 && IsSet(r.lastShown))
            ==> (ShouldShow(r, breakType, now) <==> now - r.lastShown.value >= ReminderFrequency(r))
  {
  }

  /** Waiting never hides a reminder that is already due. */
  lemma ShouldShowLater(r: BreakReminder, breakType: BreakKind, now: int, later: int)
    requires now <= later
    requires ShouldShow(r, breakType, now)
    ensures ShouldShow(r, breakType, later)
  {
  }

  /** `updateReminderLastShown(id)`: stamps `now` on the reminders with that id, leaving the rest. */
  function StampLastShown(reminders: seq<BreakReminder>, id: string, now: int): (r: seq<BreakReminder>)
    ensures |r| == |reminders|
    ensures forall i :: 0 <= i < |reminders| ==>
              r[i].lastShown == (if reminders[i].id == id then Some(now) else reminders[i].lastShown)
              && r[i].(lastShown := reminders[i].lastShown) == reminders[i]
  {
    Map(reminders, (x: BreakReminder) => if x.id == id then x.(lastShown := Some(now)) else x)
  }

  /**
    * Once stamped at a nonzero `now`, a reminder with a positive interval
    * is held back until the interval has passed.
    */
  lemma StampHoldsBack(r: BreakReminder, breakType: BreakKind, now: int, later: int)
    requires now != 0 && r.enabled && AppliesTo(r, breakType)
    requires !EveryBreakRule(r) && ReminderFrequency(r) > 0
    ensures ShouldShow(r.(lastShown := Some(now)), breakType, later) <==> later - now >= ReminderFrequency(r)
  {
  }

  /** `getBreakRemindersForType`: the enabled reminders for this kind of break. */
  function RemindersForType(reminders: seq<BreakReminder>, breakType: BreakKind): (r: seq<BreakReminder>)
  {
    Filter(reminders, (x: BreakReminder) => x.enabled && AppliesTo(x, breakType))
  }

  /** The reminders for a type are exactly the enabled, applicable ones. */
  lemma RemindersForTypeMembers(reminders: seq<BreakReminder>, breakType: BreakKind)
    ensures forall i :: 0 <= i < |RemindersForType(reminders, breakType)| ==>
              RemindersForType(reminders, breakType)[i] in reminders
              && RemindersForType(reminders, breakType)[i].enabled
              && AppliesTo(RemindersForType(reminders, breakType)[i], breakType)
    ensures forall i :: 0 <= i < |reminders| && reminders[i].enabled && AppliesTo(reminders[i], breakType) ==>
              reminders[i] in RemindersForType(reminders, breakType)
  {
    FilterMembers(reminders, (x: BreakReminder) => x.enabled && AppliesTo(x, breakType));
  }

  /** `createBreakReminder`: enabled, every break, never shown; the id is a parameter. */
  function CreateBreakReminder(id: string, title: string, description: string, breakType: ReminderBreakType,
                               category: ReminderCategory, now: int): (r: BreakReminder)
    ensures r.id == id && r.title == title && r.breakType == breakType && r.category == category
    ensures r.enabled && r.frequency == EveryBreak && r.createdAt == now
    ensures r.lastShown.None? && r.customCategory.None? && r.customFrequency.None?
  {
    BreakReminder(id, title, description, breakType, category, None, true, EveryBreak, None, now, None)
  }

  /** `getDefaultBreakReminders`: the four built-in reminders, with the given ids. */
  function DefaultBreakReminders(ids: seq<string>, now: int): (r: seq<BreakReminder>)
    requires |ids| == 4
    ensures |r| == 4
    ensures forall i :: 0 <= i < 4 ==> r[i].id == ids[i] && r[i].enabled && r[i].lastShown.None?
    ensures forall i, j :: 0 <= i < j < 4 ==> r[i].title != r[j].title
  {
    [CreateBreakReminder(ids[0], "Drink Water", "Stay hydrated! Take a sip of water.", Both, Hydration, now).(frequency := Every30Min),
     CreateBreakReminder(ids[1], "Stretch", "Stand up and do some light stretching.", Short, Movement, now).(frequency := EveryBreak),
     CreateBreakReminder(ids[2], "Deep Breathing", "Take 5 deep breaths to relax.", Both, Rest, now).(frequency := Hourly),
     CreateBreakReminder(ids[3], "Walk Around", "Take a short walk to get your blood flowing.", Long, Movement, now).(frequency := Every2Hours)]
  }

  /** Every built-in reminder is offered on some break: the short break gets three, the long break three. */
  lemma DefaultsCoverBothBreaks(ids: seq<string>, now: int)
    requires |ids| == 4
    ensures |RemindersForType(DefaultBreakReminders(ids, now), Short)| == 3
    ensures |RemindersForType(DefaultBreakReminders(ids, now), Long)| == 3
  {
    var d := DefaultBreakReminders(ids, now);
    assert d == [d[0]] + [d[1]] + [d[2]] + [d[3]];
    var ps := (x: BreakReminder) => x.enabled && AppliesTo(x, Short);
    var pl := (x: BreakReminder) => x.enabled && AppliesTo(x, Long);
    FilterAppend([d[0]] + [d[1]] + [d[2]], [d[3]], ps);
    FilterAppend([d[0]] + [d[1]], [d[2]], ps);
    FilterAppend([d[0]], [d[1]], ps);
    FilterAppend([d[0]] + [d[1]] + [d[2]], [d[3]], pl);
    FilterAppend([d[0]] + [d[1]], [d[2]], pl);
    FilterAppend([d[0]], [d[1]], pl);
  }

  /** `createBreakReminderCompletion`: a completion stamped `now`; the id is a parameter. */
  function CreateCompletion(id: string, reminderId: string, sessionId: string, breakType: BreakKind,
                            userInteraction: bool, now: int): (c: Completion)
    ensures c.reminderId == reminderId && c.sessionId == sessionId && c.completedAt == now
    ensures c.breakType == breakType && c.userInteraction == userInteraction
  {
    Completion(id, reminderId, now, sessionId, breakType, userInteraction)
  }
}
