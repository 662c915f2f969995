/**
  * What components/timer/timer-display.tsx derives from the timer's state:
  * the `mm:ss` clock, the progress ring, the session labels, the audio
  * action for the current state, and the primary control button.
  */
module Display {

  import opened Domain
  import opened Timer
  import opened Text

  /** JavaScript's `%` for a positive divisor: the remainder takes the sign of the dividend. */
  function JsRem(a: int, b: int): (r: int)
    requires b > 0
    ensures a >= 0 ==> r == a % b
    ensures a < 0 ==> -b < r <= 0
  {
    if a >= 0 then a % b else -((-a) % b)
  }

  /** `formatTime`: floored minutes and JavaScript-remainder seconds, each padded to two characters. */
  function FormatTime(seconds: int): (r: string)
    ensures seconds >= 0 ==> r == TwoDigits(seconds / 60) + ":" + TwoDigits(seconds % 60)
  {
    PadStart(IntToString(seconds / 60), 2, '0') + ":" + PadStart(IntToString(JsRem(seconds, 60)), 2, '0')
  }

  /**
    * For a non-negative count the clock reads back as the count: the part
    * before the colon is the minutes, the two digits after it the seconds;
    * below 100 minutes it is exactly five characters.
    */
  lemma FormatTimeReadsBack(seconds: int)
    requires seconds >= 0
    ensures var r := FormatTime(seconds);
            |r| >= 5 && r[|r| - 3] == ':'
            && (forall i :: 0 <= i < |r| && i != |r| - 3 ==> IsDigit(r[i]))
            && DigitsValue(r[..|r| - 3]) * 60 + DigitsValue(r[|r| - 2..]) == seconds
    ensures seconds < 6000 ==> |FormatTime(seconds)| == 5
  {
    var m, s := seconds / 60, seconds % 60;
    assert FormatTime(seconds) == TwoDigits(m) + ":" + TwoDigits(s);
    ClockShape(TwoDigits(m), TwoDigits(s));
    TwoDigitsRoundTrip(m);
    TwoDigitsRoundTrip(s);
  }

  /** Digits, a colon and two digits: the colon is third from the end and both parts read back. */
  lemma ClockShape(a: string, b: string)
    requires |a| >= 2 && |b| == 2
    requires forall i :: 0 <= i < |a| ==> IsDigit(a[i])
    requires forall i :: 0 <= i < |b| ==> IsDigit(b[i])
    ensures var r := a + ":" + b;
            |r| == |a| + 3 && r[|r| - 3] == ':' && r[..|r| - 3] == a && r[|r| - 2..] == b
            && (forall i :: 0 <= i < |r| && i != |r| - 3 ==> IsDigit(r[i]))
  {
    var r := a + ":" + b;
    forall i | 0 <= i < |r| && i != |r| - 3
      ensures IsDigit(r[i])
    {
      if i < |a| {
        assert r[i] == a[i];
      } else {
        assert r[i] == b[i - |a| - 1];
      }
    }
  }

  /** `progressPercentage`: the share of the session already elapsed, and 0 for a zero-length session. */
  function ProgressPercentage(totalTime: int, timeLeft: int): (p: real)
    ensures totalTime <= 0 ==> p == 0.0
    ensures totalTime > 0 && timeLeft == totalTime ==> p == 0.0
    ensures totalTime > 0 && timeLeft == 0 ==> p == 100.0
    ensures totalTime > 0 && 0 <= timeLeft <= totalTime ==> 0.0 <= p <= 100.0
  {
    if totalTime > 0 then Share(totalTime - timeLeft, totalTime) * 100.0 else 0.0
  }

  /** The part of a positive whole, as a fraction. */
  function Share(part: int, whole: int): (q: real)
    requires whole > 0
    ensures part == 0 ==> q == 0.0
    ensures part == whole ==> q == 1.0
    ensures 0 <= part <= whole ==> 0.0 <= q <= 1.0
  {
    part as real / whole as real
  }

  /** A tick never moves the progress ring backwards. */
  lemma ProgressGrowsWithTicks(c: Clock)
    requires c.totalTime > 0
    ensures ProgressPercentage(c.totalTime, c.timeLeft) <= ProgressPercentage(c.totalTime, Ticked(c).timeLeft)
  {
    if Running(c) && c.timeLeft > 0 {
      var w := c.totalTime as real;
      assert (c.totalTime - c.timeLeft) as real / w <= (c.totalTime - (c.timeLeft - 1)) as real / w;
    }
  }

  /** `getSessionTypeLabel`. */
  function SessionLabel(kind: SessionType): (s: string)
    ensures kind == Work <==> s == "Focus"
    ensures kind == ShortBreak <==> s == "Short Break"
    ensures kind == LongBreak <==> s == "Long Break"
  {
    match kind
    case Work => "Focus"
    case ShortBreak => "Short Break"
    case LongBreak => "Long Break"
  }

  /** `getSessionDuration`: the configured minutes of the kind, followed by " min". */
  function DurationLabel(kind: SessionType, st: Settings): (s: string)
    ensures |s| >= 5 && s[|s| - 4..] == " min"
  {
    IntToString(ConfiguredMinutes(kind, st)) + " min"
  }

  /** The number in front of " min" is the configured minutes of the kind. */
  lemma DurationLabelReadsBack(kind: SessionType, st: Settings)
    requires ConfiguredMinutes(kind, st) >= 0
    ensures var s := DurationLabel(kind, st);
            (forall i :: 0 <= i < |s| - 4 ==> IsDigit(s[i])) && DigitsValue(s[..|s| - 4]) == ConfiguredMinutes(kind, st)
  {
    var n := ConfiguredMinutes(kind, st);
    var s := DurationLabel(kind, st);
    assert s[..|s| - 4] == NatToString(n);
    NatToStringRoundTrip(n);
  }

  /** What the audio player reports. */
  datatype Playback = Playback(isPaused: bool, isPlaying: bool)

  /** The action the audio effect takes. */
  datatype AudioAction = NoAction | ResumeAudio | PlayTrack(track: string) | PauseAudio | StopAll

  /** The audio effect of lines 92-122, for the current timer state and player. */
  function AudioDecision(isActive: bool, isPaused: bool, kind: SessionType, st: Settings, player: Playback): AudioAction
  {
    if st.soundVolume == 0.0 then NoAction
    else if isActive && !isPaused then
      if player.isPaused then ResumeAudio
      else if !player.isPlaying then
        if kind == Work && st.focusAudio != "none" then PlayTrack(st.focusAudio)
        else if kind != Work && st.breakAudio != "none" then PlayTrack(st.breakAudio)
        else NoAction
      else NoAction
    else if isPaused then PauseAudio
    else StopAll
  }

  /**
    * At zero volume nothing happens.  A running timer resumes audio the
    * user paused, or else starts the kind's own track when nothing plays
    * and a track is chosen; it never pauses or stops.  A paused timer
    * pauses the audio, and an idle one stops all of it.
    */
  lemma AudioDecisionRule(isActive: bool, isPaused: bool, kind: SessionType, st: Settings, player: Playback)
    ensures var a := AudioDecision(isActive, isPaused, kind, st, player);
            (st.soundVolume == 0.0 ==> a == NoAction)
            && (a == ResumeAudio <==> st.soundVolume != 0.0 && isActive && !isPaused && player.isPaused)
            && (a.PlayTrack? ==> st.soundVolume != 0.0 && isActive && !isPaused && !player.isPaused && !player.isPlaying
                                 && a.track != "none"
                                 && a.track == (if kind == Work then st.focusAudio else st.breakAudio))
            && ((st.soundVolume != 0.0 && isActive && !isPaused && !player.isPaused && !player.isPlaying
                 && (if kind == Work then st.focusAudio else st.breakAudio) != "none") ==> a.PlayTrack?)
            && (a == PauseAudio <==> st.soundVolume != 0.0 && isPaused)
            && (a == StopAll <==> st.soundVolume != 0.0 && !isActive && !isPaused)
  {
  }

  /**
    * The cleanup of the audio effect stops everything when the timer was
    * idle.  The effect returns early at zero volume, so a cleanup exists
    * only for a non-zero volume, and its own zero-volume test never fires.
    */
  predicate CleanupStops(isActive: bool, st: Settings)
  {
    st.soundVolume != 0.0 && !isActive
  }

  /**
    * The cleanup stops only audio that its own effect run did not start:
    * whenever the effect stopped everything the cleanup stops it again,
    * and a cleanup that stops follows a run that paused or stopped.
    */
  lemma CleanupFollowsEffect(isActive: bool, isPaused: bool, kind: SessionType, st: Settings, player: Playback)
    ensures AudioDecision(isActive, isPaused, kind, st, player) == StopAll ==> CleanupStops(isActive, st)
    ensures CleanupStops(isActive, st) ==>
              AudioDecision(isActive, isPaused, kind, st, player) in {StopAll, PauseAudio}
    ensures CleanupStops(isActive, st) && !isPaused ==> AudioDecision(isActive, isPaused, kind, st, player) == StopAll
  {
  }

  /** The primary control: Start when idle, otherwise Resume when paused and Pause when running. */
  datatype PrimaryButton = StartButton | ResumeButton | PauseButton

  function Primary(isActive: bool, isPaused: bool): (b: PrimaryButton)
    ensures b == StartButton <==> !isActive
    ensures StopShown(isActive) <==> b != StartButton
    ensures b == ResumeButton <==> isActive && isPaused
  {
    if !isActive then StartButton else if isPaused then ResumeButton else PauseButton
  }

  /** The Stop button is on screen only while the timer is active. */
  predicate StopShown(isActive: bool)
  {
    isActive
  }

  /** Pressing the primary button: Start and Resume call `onStart`, Pause calls `onPause`. */
  function PressPrimary(c: Clock, st: Settings, freshId: string): Clock
  {
    if Primary(c.isActive, c.isPaused) == PauseButton then Settled(c, Paused(c), st)
    else Settled(c, Started(c, freshId), st)
  }

  /**
    * The primary button toggles between running and not running, and
    * never moves the clock or changes the session.
    */
  lemma PrimaryButtonToggles(c: Clock, st: Settings, freshId: string)
    ensures Running(PressPrimary(c, st, freshId)) <==> !Running(c)
    ensures PressPrimary(c, st, freshId).timeLeft == c.timeLeft
    ensures PressPrimary(c, st, freshId).totalTime == c.totalTime
    ensures PressPrimary(c, st, freshId).sessionType == c.sessionType
    ensures PressPrimary(c, st, freshId).currentSession == c.currentSession
  {
  }
}
