/**
  * The Pomodoro timer of components/timer/timer-container.tsx: a countdown
  * in seconds, the active and paused flags, the current kind of session and
  * the ordinal of the current work session.  The pure functions below give
  * the state each handler (together with the effects it sets off) leads to;
  * the class `TimerContainer` performs the same updates field by field.
  */
module Timer {

  import opened Options
  import opened Domain

  /** The clock before any settings are applied: a 25-minute work session. */
  const InitialSeconds := 25 * 60

  /** The visible state of the timer. */
  datatype Clock = Clock(
    timeLeft: int,          // seconds
    totalTime: int,         // seconds
    isActive: bool,
    isPaused: bool,
    sessionType: SessionType,
    currentSession: int,    // ordinal of the current work session, from 1
    totalSessions: int,     // work sessions per long-break cycle
    sessionId: string)      // "" while none is assigned

  /** The configured minutes of a kind of session. */
  function ConfiguredMinutes(kind: SessionType, st: Settings): int
  {
    match kind
    case Work => st.workDuration
    case ShortBreak => st.shortBreakDuration
    case LongBreak => st.longBreakDuration
  }

  /** The configured length of a kind of session, in seconds: always whole minutes. */
  function ConfiguredSeconds(kind: SessionType, st: Settings): (secs: int)
    ensures secs % 60 == 0 && secs / 60 == ConfiguredMinutes(kind, st)
  {
    ConfiguredMinutes(kind, st) * 60
  }

  /**
    * The duration-sync effect: while the timer is idle the clock is set to
    * the configured length of the current kind; the cycle length always
    * follows the settings.
    */
  function Synced(c: Clock, st: Settings): Clock
  {
    var c' := c.(totalSessions := st.sessionsUntilLongBreak);
    if c.isActive then c'
    else c'.(timeLeft := ConfiguredSeconds(c.sessionType, st), totalTime := ConfiguredSeconds(c.sessionType, st))
  }

  /** A handler's update followed by the duration-sync effect, which runs when the kind or the active flag changed. */
  function Settled(before: Clock, after: Clock, st: Settings): Clock
  {
    if before.sessionType != after.sessionType || before.isActive != after.isActive then Synced(after, st)
    else after
  }

  predicate Running(c: Clock)
  {
    c.isActive && !c.isPaused
  }

  /** One second of the tick effect: the countdown moves only while running and above zero. */
  function Ticked(c: Clock): Clock
  {
    if Running(c) && c.timeLeft > 0 then c.(timeLeft := c.timeLeft - 1) else c
  }

  /** The tick effect's other branch: an active timer at zero completes its session. */
  predicate CompletionDue(c: Clock)
  {
    c.timeLeft == 0 && c.isActive
  }

  function Ticks(c: Clock, n: nat): Clock
    decreases n
  {
    if n == 0 then c else Ticks(Ticked(c), n - 1)
  }

  /**
    * A running countdown loses exactly one second per tick until it reaches
    * zero, where it stays with its session due for completion.
    */
  lemma {:induction false} CountdownReachesZero(c: Clock, n: nat)
    requires Running(c) && c.timeLeft >= 0
    ensures n <= c.timeLeft ==> Ticks(c, n) == c.(timeLeft := c.timeLeft - n)
    ensures n >= c.timeLeft ==> Ticks(c, n) == c.(timeLeft := 0) && CompletionDue(Ticks(c, n))
    decreases n
  {
    if n > 0 {
      CountdownReachesZero(Ticked(c), n - 1);
    }
  }

  /** `handleStart`: active and unpaused; a session id is assigned only when none is set. */
  function Started(c: Clock, freshId: string): Clock
  {
    c.(isActive := true, isPaused := false, sessionId := if c.sessionId == "" then freshId else c.sessionId)
  }

  /** `handlePause`: only the paused flag changes. */
  function Paused(c: Clock): Clock
  {
    c.(isPaused := true)
  }

  /** `handleStop`: idle, with the clock back at the configured length of the current kind. */
  function Stopped(c: Clock, st: Settings): Clock
  {
    c.(isActive := false, isPaused := false,
       timeLeft := ConfiguredSeconds(c.sessionType, st), totalTime := ConfiguredSeconds(c.sessionType, st))
  }

  /** `handleReset`: back to an idle first work session. */
  function ResetClock(c: Clock, st: Settings): Clock
  {
    c.(isActive := false, isPaused := false, sessionType := Work, currentSession := 1,
       timeLeft := ConfiguredSeconds(Work, st), totalTime := ConfiguredSeconds(Work, st))
  }

  /** Whether or not the sync effect runs after a reset, the clock is an idle first work session with a full work clock. */
  lemma ResetSettlesIdle(c: Clock, st: Settings)
    ensures var r := Settled(c, ResetClock(c, st), st);
            r.sessionType == Work && r.currentSession == 1 && !r.isActive && !r.isPaused
            && r.timeLeft == r.totalTime == ConfiguredSeconds(Work, st)
  {
  }

  /** `handleSessionTypeChange`: a running timer is stopped before the kind changes. */
  function TypeChanged(c: Clock, kind: SessionType): Clock
  {
    (if c.isActive then c.(isActive := false, isPaused := false) else c).(sessionType := kind)
  }

  /**
    * The long-break cadence `currentSession % sessionsUntilLongBreak === 0`.
    * JavaScript's remainder is zero exactly when Dafny's is, whatever the
    * signs; a zero divisor yields NaN, which is never zero.
    */
  predicate LongBreakDue(n: int, k: int)
  {
    k != 0 && n % k == 0
  }

  /** `startNextSession`: work is followed by a break, a break by the next work session; the id is cleared. */
  function NextSession(c: Clock, st: Settings): Clock
  {
    if c.sessionType == Work then
      c.(sessionId := "", sessionType := if LongBreakDue(c.currentSession, st.sessionsUntilLongBreak) then LongBreak else ShortBreak)
    else
      c.(sessionId := "", sessionType := Work, currentSession := c.currentSession + 1)
  }

  /** The settings under which the next session starts by itself. */
  predicate AutoStarts(kind: SessionType, st: Settings)
  {
    (kind == Work && st.autoStartBreaks) || (kind != Work && st.autoStartWork)
  }

  /**
    * `handleSessionComplete`'s effect on the clock, as written: without
    * auto-start the timer goes idle and the sync effect loads the next
    * kind's length; with auto-start it stays active, so the sync effect
    * leaves the clock where it was.
    */
  function Completed(c: Clock, st: Settings): Clock
  {
    var d := if AutoStarts(c.sessionType, st) then c else c.(isActive := false, isPaused := false);
    Settled(c, NextSession(d, st), st)
  }

  /** The same, with the next session always starting on a full clock. */
  function CompletedRestarting(c: Clock, st: Settings): (r: Clock)
    ensures r.timeLeft == r.totalTime == ConfiguredSeconds(r.sessionType, st)
  {
    var r := Completed(c, st);
    r.(timeLeft := ConfiguredSeconds(r.sessionType, st), totalTime := ConfiguredSeconds(r.sessionType, st))
  }

  /**
    * After a session completes, the timer stays active exactly when the
    * settings auto-start the next kind; otherwise it is idle and unpaused
    * with a full clock.  Work leads to a long break exactly on the cadence,
    * with the same ordinal; a break leads to the next work session; the
    * session id is cleared.
    */
  lemma CompletionOutcome(c: Clock, st: Settings)
    requires CompletionDue(c)
    ensures Completed(c, st).isActive <==> AutoStarts(c.sessionType, st)
    ensures !AutoStarts(c.sessionType, st) ==>
              !Completed(c, st).isPaused
              && Completed(c, st).timeLeft == Completed(c, st).totalTime == ConfiguredSeconds(Completed(c, st).sessionType, st)
    ensures c.sessionType == Work ==>
              Completed(c, st).currentSession == c.currentSession
              && (Completed(c, st).sessionType == LongBreak <==> LongBreakDue(c.currentSession, st.sessionsUntilLongBreak))
              && Completed(c, st).sessionType != Work
    ensures c.sessionType != Work ==>
              Completed(c, st).sessionType == Work && Completed(c, st).currentSession == c.currentSession + 1
    ensures Completed(c, st).sessionId == ""
  {
  }

  /**
    * As written, an auto-started session begins at zero seconds, and its
    * clock never moves: ticks leave it unchanged.
    */
  lemma AutoStartStallsAtZero(c: Clock, st: Settings)
    requires CompletionDue(c) && AutoStarts(c.sessionType, st)
    ensures Completed(c, st).isActive && Completed(c, st).timeLeft == 0
    ensures forall n: nat :: Ticks(Completed(c, st), n) == Completed(c, st)
  {
    var r := Completed(c, st);
    forall n: nat
      ensures Ticks(r, n) == r
    {
      TicksAtZero(r, n);
    }
  }

  lemma {:induction false} TicksAtZero(c: Clock, n: nat)
    requires c.timeLeft == 0
    ensures Ticks(c, n) == c
    decreases n
  {
    if n > 0 {
      TicksAtZero(Ticked(c), n - 1);
    }
  }

  /**
    * With the correction, an auto-started session that has a positive
    * configured length counts down from that length.
    */
  lemma RestartedSessionCountsDown(c: Clock, st: Settings, n: nat)
    requires CompletionDue(c) && !c.isPaused && AutoStarts(c.sessionType, st)
    requires n <= ConfiguredSeconds(CompletedRestarting(c, st).sessionType, st)
    ensures CompletedRestarting(c, st).isActive
    ensures Ticks(CompletedRestarting(c, st), n).timeLeft == CompletedRestarting(c, st).totalTime - n
  {
    CountdownReachesZero(CompletedRestarting(c, st), n);
  }

  /**
    * A full cycle without auto-start: a work session completes, its break is
    * started and runs down, and the break completes; the timer is then idle
    * at the next work session, with a full work clock.
    */
  lemma WorkBreakCycle(c: Clock, st: Settings, freshId: string)
    requires c.sessionType == Work && CompletionDue(c)
    requires !st.autoStartBreaks && !st.autoStartWork
    requires st.shortBreakDuration >= 0 && st.longBreakDuration >= 0
    ensures var b := Completed(c, st);
            var s := Settled(b, Started(b, freshId), st);
            var w := Completed(Ticks(s, s.timeLeft), st);
            w.sessionType == Work && w.currentSession == c.currentSession + 1
            && !w.isActive && !w.isPaused && w.timeLeft == w.totalTime == ConfiguredSeconds(Work, st)
  {
    var b := Completed(c, st);
    CompletionOutcome(c, st);
    var s := Settled(b, Started(b, freshId), st);
    assert Running(s) && s.timeLeft >= 0;
    CountdownReachesZero(s, s.timeLeft);
    CompletionOutcome(Ticks(s, s.timeLeft), st);
  }

  /** `n` pause-and-resume cycles, each with the effects it sets off. */
  function PauseResume(c: Clock, n: nat, st: Settings, freshId: string): Clock
    decreases n
  {
    if n == 0 then c
    else
      var p := Settled(c, Paused(c), st);
      PauseResume(Settled(p, Started(p, freshId), st), n - 1, st, freshId)
  }

  /**
    * Pausing and resuming, any number of times and without ticks in
    * between, never moves the clock and never changes the session; after at
    * least one cycle the timer is running.
    */
  lemma {:induction false} PauseResumeKeepsClock(c: Clock, n: nat, st: Settings, freshId: string)
    ensures PauseResume(c, n, st, freshId).timeLeft == c.timeLeft
    ensures PauseResume(c, n, st, freshId).totalTime == c.totalTime
    ensures PauseResume(c, n, st, freshId).sessionType == c.sessionType
    ensures PauseResume(c, n, st, freshId).currentSession == c.currentSession
    ensures n > 0 ==> Running(PauseResume(c, n, st, freshId))
    decreases n
  {
    if n > 0 {
      var p := Settled(c, Paused(c), st);
      PauseResumeKeepsClock(Settled(p, Started(p, freshId), st), n - 1, st, freshId);
    }
  }

  /** The number of work sessions among `n`, …, `n+m-1` that are followed by a long break. */
  function LongBreaksAmong(n: int, m: nat, k: int): nat
    decreases m
  {
    if m == 0 then 0 else LongBreaksAmong(n, m - 1, k) + (if LongBreakDue(n + m - 1, k) then 1 else 0)
  }

  lemma DivUnique(x: int, k: int, q: int, r: int)
    requires k >= 1 && 0 <= r < k && x == q * k + r
    ensures x / k == q
  {
    var d := q - x / k;
    assert d * k == x % k - r;
    MulSign(d, k);
  }

  lemma MulSign(d: int, k: int)
    requires k >= 1
    ensures d >= 1 ==> d * k >= k
    ensures d <= -1 ==> d * k <= -k
  {
  }

  /** Going one up adds one multiple of `k` exactly when the new number is one. */
  lemma DivStep(x: int, k: int)
    requires k >= 1
    ensures x / k - (x - 1) / k == if x % k == 0 then 1 else 0
  {
    var q, r := x / k, x % k;
    if r == 0 {
      DivUnique(x - 1, k, q - 1, k - 1);
    } else {
      DivUnique(x - 1, k, q, r - 1);
    }
  }

  lemma {:induction false} LongBreaksCounted(n: int, m: nat, k: int)
    requires k >= 1
    ensures LongBreaksAmong(n, m, k) == (n + m - 1) / k - (n - 1) / k
    decreases m
  {
    if m > 0 {
      LongBreaksCounted(n, m - 1, k);
      DivStep(n + m - 1, k);
    }
  }

  /** Any `k` consecutive work sessions are followed by exactly one long break between them. */
  lemma OneLongBreakPerCycle(n: int, k: int)
    requires k >= 1
    ensures LongBreaksAmong(n, k, k) == 1
  {
    LongBreaksCounted(n, k, k);
    DivUnique(n + k - 1, k, (n - 1) / k + 1, (n - 1) % k);
  }

  /** The session record handed to `onSessionComplete`. */
  function EmittedSession(c: Clock, taskId: Option<string>, completed: seq<string>, shown: seq<string>,
                          now: int, freshId: string): (s: Session)
    ensures s.id == (if c.sessionId != "" then c.sessionId else freshId)
    ensures s.kind == c.sessionType && s.completed && s.timestamp == now
    ensures c.totalTime % 60 == 0 ==> s.duration * 60 == c.totalTime
    ensures s.taskId.Some? <==> taskId.Some? && taskId.value != ""
    ensures s.taskId.Some? ==> s.taskId == taskId
    ensures s.remindersCompleted.Some? <==> c.sessionType != Work && |completed| > 0
    ensures s.remindersCompleted.Some? ==> s.remindersCompleted.value == completed
    ensures s.remindersShown.Some? <==> c.sessionType != Work && |shown| > 0
    ensures s.remindersShown.Some? ==> s.remindersShown.value == shown
  {
    Session(if c.sessionId != "" then c.sessionId else freshId,
            c.sessionType, c.totalTime / 60, true, now,
            if taskId.Some? && taskId.value != "" then taskId else None,
            if c.sessionType != Work && |completed| > 0 then Some(completed) else None,
            if c.sessionType != Work && |shown| > 0 then Some(shown) else None)
  }

  /** The task credited through `onTaskSessionComplete`: the current one, after a work session only. */
  function CreditedTask(kind: SessionType, taskId: Option<string>): (r: Option<string>)
    ensures r.Some? <==> kind == Work && taskId.Some?
    ensures r.Some? ==> r == taskId
  {
    if kind == Work && taskId.Some? then taskId else None
  }

  /** The outcome of the break-reminder effect. */
  datatype PanelEffect = PanelEffect(show: bool, fired: Option<BreakKind>, key: Option<(SessionType, int)>, clearStored: bool)

  /**
    * The break-reminder effect: during an active break the panel shows and
    * the reminder notifications fire unless this break (kind and ordinal) has
    * already fired them; otherwise the panel hides, the marker is dropped,
    * and an active work session clears the stored completion set.
    */
  function ReminderEffect(kind: SessionType, isActive: bool, n: int, key: Option<(SessionType, int)>): PanelEffect
  {
    if kind != Work && isActive then
      var k := (kind, n);
      var b: BreakKind := if kind == ShortBreak then Short else Long;
      PanelEffect(true, if key != Some(k) then Some(b) else None, Some(k), false)
    else
      PanelEffect(false, None, None, kind == Work && isActive)
  }

  /**
    * The notifications fire on the first run of the effect in an active
    * break, for that break's kind, and never again while the same break is
    * on.
    */
  lemma RemindersFireOncePerBreak(kind: SessionType, isActive: bool, n: int, key: Option<(SessionType, int)>)
    ensures var e := ReminderEffect(kind, isActive, n, key);
            (e.fired.Some? <==> kind != Work && isActive && key != Some((kind, n)))
            && (e.fired.Some? ==> (e.fired.value == Short <==> kind == ShortBreak))
            && ReminderEffect(kind, isActive, n, e.key).fired.None?
  {
  }

  /** The timer component's state, updated in place by its handlers and effects. */
  class TimerContainer {
    var timeLeft: int
    var totalTime: int
    var isActive: bool
    var isPaused: bool
    var sessionType: SessionType
    var currentSession: int
    var totalSessions: int
    var sessionId: string
    var settings: Settings
    var currentTask: Option<string>            // id of the selected task, when it exists
    var showBreakReminders: bool
    var remindersCompleted: seq<string>
    var remindersShown: seq<string>
    var triggeredKey: Option<(SessionType, int)>

    function State(): Clock
      reads this
    {
      Clock(timeLeft, totalTime, isActive, isPaused, sessionType, currentSession, totalSessions, sessionId)
    }

    /** Everything outside the clock is as it was. */
    twostate predicate OthersUnchanged()
      reads this
    {
      settings == old(settings) && currentTask == old(currentTask) && showBreakReminders == old(showBreakReminders)
      && remindersCompleted == old(remindersCompleted) && remindersShown == old(remindersShown)
      && triggeredKey == old(triggeredKey)
    }

    /** The clock is a whole number of minutes and the ordinal starts at 1. */
    predicate Valid()
      reads this
    {
      totalTime % 60 == 0 && currentSession >= 1
    }

    /** The initial state: an idle 25-minute first work session, with the stored settings. */
    constructor(stored: Settings)
      ensures State() == Clock(InitialSeconds, InitialSeconds, false, false, Work, 1, 4, "")
      ensures settings == stored && currentTask.None? && !showBreakReminders
      ensures remindersCompleted == [] && remindersShown == [] && triggeredKey.None?
      ensures Valid()
    {
      timeLeft, totalTime := InitialSeconds, InitialSeconds;
      isActive, isPaused := false, false;
      sessionType := Work;
      currentSession, totalSessions := 1, 4;
      sessionId := "";
      settings := stored;
      currentTask := None;
      showBreakReminders := false;
      remindersCompleted, remindersShown := [], [];
      triggeredKey := None;
    }

    /** The duration-sync effect on the current settings. */
    method SyncDuration()
      modifies this
      ensures State() == Synced(old(State()), settings)
      ensures OthersUnchanged()
      ensures old(Valid()) ==> Valid()
    {
      if !isActive {
        var duration := ConfiguredMinutes(sessionType, settings) * 60;
        timeLeft := duration;
        totalTime := duration;
      }
      totalSessions := settings.sessionsUntilLongBreak;
    }

    /** Runs the duration-sync effect when a handler changed the kind or the active flag. */
    method SettleAfter(kind: SessionType, active: bool)
      modifies this
      ensures State() == Settled(old(State()).(sessionType := kind, isActive := active), old(State()), settings)
      ensures OthersUnchanged()
      ensures old(Valid()) ==> Valid()
    {
      if kind != sessionType || active != isActive {
        SyncDuration();
      }
    }

    /** The settings effect on mount: the stored settings are loaded and the clock synced to them. */
    method LoadSettings(stored: Settings)
      modifies this
      ensures State() == Synced(old(State()), stored) && settings == stored
      ensures currentTask == old(currentTask) && showBreakReminders == old(showBreakReminders)
      ensures remindersCompleted == old(remindersCompleted) && remindersShown == old(remindersShown)
      ensures triggeredKey == old(triggeredKey)
      ensures old(Valid()) ==> Valid()
    {
      settings := stored;
      SyncDuration();
    }

    /** The `settingsUpdated` listener: new settings re-sync the clock when a duration or the cycle length changed. */
    method OnSettingsUpdated(s: Settings)
      modifies this
      ensures settings == s
      ensures State() == (if s.workDuration != old(settings).workDuration || s.shortBreakDuration != old(settings).shortBreakDuration
                             || s.longBreakDuration != old(settings).longBreakDuration
                             || s.sessionsUntilLongBreak != old(settings).sessionsUntilLongBreak
                          then Synced(old(State()), s) else old(State()))
      ensures currentTask == old(currentTask) && showBreakReminders == old(showBreakReminders)
      ensures remindersCompleted == old(remindersCompleted) && remindersShown == old(remindersShown)
      ensures triggeredKey == old(triggeredKey)
      ensures old(Valid()) ==> Valid()
    {
      var before := settings;
      settings := s;
      if s.workDuration != before.workDuration || s.shortBreakDuration != before.shortBreakDuration
         || s.longBreakDuration != before.longBreakDuration || s.sessionsUntilLongBreak != before.sessionsUntilLongBreak
      {
        SyncDuration();
      }
    }

    /** The selected-task effect: the task with the selected id, when there is one. */
    method SelectTask(selected: Option<string>, tasks: seq<Task>)
      modifies this
      ensures currentTask.Some? <==> selected.Some? && selected.value != "" && exists i :: 0 <= i < |tasks| && tasks[i].id == selected.value
      ensures currentTask.Some? ==> currentTask == selected
      ensures State() == old(State()) && settings == old(settings) && showBreakReminders == old(showBreakReminders)
      ensures remindersCompleted == old(remindersCompleted) && remindersShown == old(remindersShown)
      ensures triggeredKey == old(triggeredKey)
    {
      currentTask := None;
      if selected.Some? && selected.value != "" {
        var i := 0;
        while i < |tasks|
          invariant 0 <= i <= |tasks|
          invariant forall j :: 0 <= j < i ==> tasks[j].id != selected.value
        {
          if tasks[i].id == selected.value {
            currentTask := selected;
            return;
          }
          i := i + 1;
        }
      }
    }

    /** `handleStart`. */
    method HandleStart(freshId: string)
      requires Valid()
      modifies this
      ensures State() == Settled(old(State()), Started(old(State()), freshId), settings)
      ensures OthersUnchanged()
      ensures Valid()
    {
      var kind, active := sessionType, isActive;
      isActive := true;
      isPaused := false;
      if sessionId == "" {
        sessionId := freshId;
      }
      SettleAfter(kind, active);
    }

    /** `handlePause`. */
    method HandlePause()
      modifies this
      ensures State() == Paused(old(State()))
      ensures OthersUnchanged()
    {
      isPaused := true;
    }

    /** `handleStop`: idle and unpaused, with a full clock for the current kind; the kind, the ordinal and the id are kept. */
    method HandleStop()
      requires Valid()
      modifies this
      ensures State() == Settled(old(State()), Stopped(old(State()), settings), settings)
      ensures !isActive && !isPaused && timeLeft == totalTime == ConfiguredSeconds(sessionType, settings)
      ensures sessionType == old(sessionType) && currentSession == old(currentSession) && sessionId == old(sessionId)
      ensures OthersUnchanged()
      ensures Valid()
    {
      ghost var c0 := State();
      var kind, active := sessionType, isActive;
      isActive := false;
      isPaused := false;
      var duration := ConfiguredMinutes(sessionType, settings) * 60;
      timeLeft := duration;
      totalTime := duration;
      assert State() == Stopped(c0, settings);
      SettleAfter(kind, active);
    }

    /** `handleReset`: an idle first work session with a full work clock. */
    method HandleReset()
      requires Valid()
      modifies this
      ensures State() == Settled(old(State()), ResetClock(old(State()), settings), settings)
      ensures sessionType == Work && currentSession == 1 && !isActive && !isPaused
      ensures timeLeft == totalTime == ConfiguredSeconds(Work, settings)
      ensures OthersUnchanged()
      ensures Valid()
    {
      ghost var c0 := State();
      var kind, active := sessionType, isActive;
      isActive := false;
      isPaused := false;
      sessionType := Work;
      currentSession := 1;
      var workTime := settings.workDuration * 60;
      timeLeft := workTime;
      totalTime := workTime;
      assert State() == ResetClock(c0, settings);
      SettleAfter(kind, active);
      ResetSettlesIdle(c0, settings);
    }

    /** `handleSessionTypeChange`. */
    method HandleSessionTypeChange(newType: SessionType)
      requires Valid()
      modifies this
      ensures State() == Settled(old(State()), TypeChanged(old(State()), newType), settings)
      ensures sessionType == newType && !(old(isActive) && isActive)
      ensures OthersUnchanged()
      ensures Valid()
    {
      var kind, active := sessionType, isActive;
      if isActive {
        isActive := false;
        isPaused := false;
      }
      sessionType := newType;
      SettleAfter(kind, active);
    }

    /** `handleRemindersCompleted`: the break-reminder panel reports its completed and shown ids. */
    method HandleRemindersCompleted(completed: seq<string>, shown: seq<string>)
      modifies this
      ensures remindersCompleted == completed && remindersShown == shown
      ensures State() == old(State()) && settings == old(settings) && currentTask == old(currentTask)
      ensures showBreakReminders == old(showBreakReminders) && triggeredKey == old(triggeredKey)
    {
      remindersCompleted := completed;
      remindersShown := shown;
    }

    /** `handleCloseBreakReminders`. */
    method HandleCloseBreakReminders()
      modifies this
      ensures !showBreakReminders
      ensures State() == old(State()) && settings == old(settings) && currentTask == old(currentTask)
      ensures remindersCompleted == old(remindersCompleted) && remindersShown == old(remindersShown)
      ensures triggeredKey == old(triggeredKey)
    {
      showBreakReminders := false;
    }

    /** `startNextSession`, before the effects it sets off. */
    method StartNextSession()
      modifies this
      ensures State() == NextSession(old(State()), settings)
      ensures OthersUnchanged()
    {
      sessionId := "";
      if sessionType == Work {
        sessionType := if LongBreakDue(currentSession, settings.sessionsUntilLongBreak) then LongBreak else ShortBreak;
      } else {
        sessionType := Work;
        currentSession := currentSession + 1;
      }
    }

    /**
      * `handleSessionComplete`: emits the session record, names the task to
      * credit, and moves on to the next session as `Completed` describes:
      * an auto-started session keeps the finished one's clock, at zero
      * (`AutoStartStallsAtZero`; `CompletedRestarting` is the corrected rule).
      */
    method HandleSessionComplete(now: int, freshId: string) returns (session: Session, credited: Option<string>)
      requires Valid()
      requires CompletionDue(State())
      modifies this
      ensures session == EmittedSession(old(State()), old(currentTask), old(remindersCompleted), old(remindersShown), now, freshId)
      ensures credited == CreditedTask(old(sessionType), old(currentTask))
      ensures State() == Completed(old(State()), settings)
      ensures OthersUnchanged()
      ensures Valid()
    {
      ghost var c0 := State();
      session := EmittedSession(State(), currentTask, remindersCompleted, remindersShown, now, freshId);
      credited := CreditedTask(sessionType, currentTask);
      var kind, active := sessionType, isActive;
      if !AutoStarts(sessionType, settings) {
        isActive := false;
        isPaused := false;
      }
      ghost var d := State();
      assert d == (if AutoStarts(c0.sessionType, settings) then c0 else c0.(isActive := false, isPaused := false));
      StartNextSession();
      SettleAfter(kind, active);
      assert State() == Completed(c0, settings);
    }

    /**
      * One run of the tick effect: a running clock above zero loses a second;
      * an active clock at zero completes its session.
      */
    method TickEffect(now: int, freshId: string) returns (session: Option<Session>, credited: Option<string>)
      requires Valid()
      modifies this
      ensures Running(old(State())) && old(timeLeft) > 0 ==>
                State() == Ticked(old(State())) && session.None? && credited.None?
      ensures !(Running(old(State())) && old(timeLeft) > 0) && CompletionDue(old(State())) ==>
                State() == Completed(old(State()), settings)
                && session == Some(EmittedSession(old(State()), old(currentTask), old(remindersCompleted), old(remindersShown), now, freshId))
                && credited == CreditedTask(old(sessionType), old(currentTask))
      ensures !(Running(old(State())) && old(timeLeft) > 0) && !CompletionDue(old(State())) ==>
                State() == old(State()) && session.None? && credited.None?
      ensures OthersUnchanged()
      ensures Valid()
    {
      session, credited := None, None;
      if isActive && !isPaused && timeLeft > 0 {
        timeLeft := timeLeft - 1;
      } else if timeLeft == 0 && isActive {
        var s, t := HandleSessionComplete(now, freshId);
        session, credited := Some(s), t;
      }
    }

    /** The break-reminder effect; returns the kind of break whose notifications fire, and whether the stored completion set is cleared. */
    method BreakReminderEffect() returns (fired: Option<BreakKind>, clearStored: bool)
      modifies this
      ensures PanelEffect(showBreakReminders, fired, triggeredKey, clearStored)
              == ReminderEffect(sessionType, isActive, currentSession, old(triggeredKey))
      ensures State() == old(State()) && settings == old(settings) && currentTask == old(currentTask)
      ensures remindersCompleted == old(remindersCompleted) && remindersShown == old(remindersShown)
    {
      fired, clearStored := None, false;
      if sessionType != Work && isActive {
        showBreakReminders := true;
        var breakType: BreakKind := if sessionType == ShortBreak then Short else Long;
        var key := (sessionType, currentSession);
        if triggeredKey != Some(key) {
          fired := Some(breakType);
          triggeredKey := Some(key);
        }
      } else {
        showBreakReminders := false;
        triggeredKey := None;
        if sessionType == Work && isActive {
          clearStored := true;
        }
      }
    }
  }
}
