/**
 * The pomodoro timer section: the countdown display, the start handler, and
 * its two effects — the one-second interval that dispatches TICK_TIMER while
 * the timer runs, and the completion effect that starts the next session.
 */
module Pomodoro {
  import opened Optional
  import opened Text
  import opened State
  import opened Reducer
  import opened Provider

  /** formatTime: whole minutes and the remaining seconds, each padded to two digits. */
  function FormatTime(seconds: int): string {
    PadStart2(IntToString(seconds / 60)) + ":" + PadStart2(IntToString(JsRem(seconds, 60)))
  }

  /** The display of the timer's countdown; a missing or not-a-number countdown shows as "NaN:NaN". */
  function CountdownText(t: Timer): string {
    match t.timeLeft
    case Some(n) => FormatTime(n)
    case None => "NaN:NaN"
  }

  /** A non-negative countdown reads back as the same number of seconds. */
  lemma FormatTimeReadsBack(seconds: nat)
    ensures ParseClock(FormatTime(seconds)) == Some(seconds)
  {
    FormatTimeParts(seconds);
    PaddedClockOfSeconds(seconds);
  }

  /** A non-negative countdown shows at least two minute digits, a colon, and exactly two second digits. */
  lemma FormatTimeLayout(seconds: nat)
    ensures var text := FormatTime(seconds);
      |text| >= 5 && text[|text| - 3] == ':' && AllDigits(text[|text| - 2..])
  {
    var mm, ss := PadStart2(Decimal(seconds / 60)), PadStart2(Decimal(seconds % 60));
    FormatTimeParts(seconds);
    NumeralParts(seconds / 60, seconds % 60);
    var text := mm + ":" + ss;
    assert text[|text| - 2..] == ss;
  }

  lemma PaddedClockOfSeconds(seconds: nat)
    ensures ParseClock(PadStart2(Decimal(seconds / 60)) + ":" + PadStart2(Decimal(seconds % 60))) == Some(seconds)
  {
    var m, s := seconds / 60, seconds % 60;
    NumeralParts(m, s);
    ParseClockOf(PadStart2(Decimal(m)), PadStart2(Decimal(s)));
  }

  /** For a non-negative count, the two halves of the display are the numerals of its minutes and seconds. */
  lemma FormatTimeParts(seconds: nat)
    ensures FormatTime(seconds) == PadStart2(Decimal(seconds / 60)) + ":" + PadStart2(Decimal(seconds % 60))
  {
  }

  /** The padded numerals of the minutes and of the seconds, and their values. */
  lemma NumeralParts(m: nat, s: nat)
    requires s < 60
    ensures |PadStart2(Decimal(m))| >= 2 && |PadStart2(Decimal(s))| == 2
    ensures AllDigits(PadStart2(Decimal(m))) && ParseDecimal(PadStart2(Decimal(m))) == m
    ensures AllDigits(PadStart2(Decimal(s))) && ParseDecimal(PadStart2(Decimal(s))) == s
  {
    DecimalBelow100(s);
    PadStart2Value(Decimal(m));
    PadStart2Value(Decimal(s));
    ParseDecimalOfDecimal(m);
    ParseDecimalOfDecimal(s);
  }

  /** handleStart: the chosen minutes, as seconds. */
  function StartAction(minutes: int, kind: TimerKind): Action {
    StartTimer(minutes * 60, kind)
  }

  /** A session started for `minutes` whole minutes shows those minutes and zero seconds. */
  lemma StartShowsWholeMinutes(minutes: nat, kind: TimerKind)
    ensures FormatTime(StartAction(minutes, kind).duration) == PadStart2(Decimal(minutes)) + ":00"
  {
    var d := minutes * 60;
    assert StartAction(minutes, kind).duration == d && d / 60 == minutes;
    WholeMinutes(d);
  }

  /** A count of whole minutes shows zero seconds. */
  lemma WholeMinutes(d: nat)
    requires d % 60 == 0
    ensures FormatTime(d) == PadStart2(Decimal(d / 60)) + ":00"
  {
    FormatTimeParts(d);
    assert PadStart2(Decimal(0)) == "00";
    var mm := PadStart2(Decimal(d / 60));
    assert mm + ":" + "00" == mm + ":00";
  }

  /** The interval that dispatches TICK_TIMER exists exactly while the timer is active and not paused. */
  predicate ShouldTick(t: Timer) {
    Truthy(t.isActive) && !Truthy(t.isPaused)
  }

  /**
   * The completion effect: an active pomodoro at zero starts the next one —
   * a 5-minute break after work, 25 minutes of work after a break. A custom
   * timer never restarts.
   */
  function CompletionAction(t: Timer): (r: Option<Action>)
    ensures r.Some? ==> t.kind == Some(Pomodoro) && t.timeLeft == Some(0) && Truthy(t.isActive)
    ensures r.Some? ==> r.value == StartTimer(if Truthy(t.isBreak) then 1500 else 300, Pomodoro)
    ensures t.kind == Some(Pomodoro) && t.timeLeft == Some(0) && Truthy(t.isActive) ==> r.Some?
  {
    if t.timeLeft == Some(0) && Truthy(t.isActive) then
      if t.kind == Some(Pomodoro) then
        Some(StartTimer(if Truthy(t.isBreak) then 25 * 60 else 5 * 60, Pomodoro))
      else None
    else None
  }

  /** A custom timer never restarts by itself. */
  lemma CustomNeverAutoStarts(t: Timer)
    requires t.kind == Some(Custom)
    ensures CompletionAction(t) == None
  {
  }

  /** A tick that reaches zero also stops the timer, so no tick ever lets the completion effect fire. */
  lemma TickNeverCompletes(s: AppState, now: nat)
    ensures CompletionAction(Apply(s, TickTimer, now).currentTimer) == None
  {
  }

  /**
   * The completion effect can only come to fire through START_TIMER with a
   * zero duration (or a load that brings an active timer, which a stored
   * record never holds).
   */
  lemma AutoStartOnlyAfterZeroStart(s: AppState, a: Action, now: nat)
    requires Admissible(a)
    requires a.LoadFromStorage? && a.payload.currentTimer.Some? ==> !Truthy(a.payload.currentTimer.value.isActive)
    requires CompletionAction(s.currentTimer) == None
    requires CompletionAction(Apply(s, a, now).currentTimer).Some?
    ensures a == StartTimer(0, Pomodoro)
  {
    TickNeverCompletes(s, now);
    if !(a.StartTimer? || a.PauseTimer? || a.ResetTimer? || a.TickTimer? || a.SetTimerColor? || a.LoadFromStorage?) {
      TimerFrame(s, a, now);
    }
  }

  /** The session the completion effect starts runs, and does not itself complete. */
  lemma AutoStartRuns(s: AppState, now: nat)
    requires CompletionAction(s.currentTimer).Some?
    ensures var t := Apply(s, CompletionAction(s.currentTimer).value, now).currentTimer;
      && ShouldTick(t) && t.kind == Some(Pomodoro)
      && t.timeLeft == Some(if Truthy(s.currentTimer.isBreak) then PomodoroSeconds else 5 * 60)
      && CompletionAction(t) == None
  {
  }

  /** The state after the completion effect has run on `s`. */
  function Settled(s: AppState, now: nat): AppState {
    match CompletionAction(s.currentTimer)
    case Some(a) => Apply(s, a, now)
    case None => s
  }

  /** The timer section, with the interval it keeps scheduled. */
  class PomodoroTimer {
    const store: Store
    /** The minutes entered for a custom session. */
    var customDuration: int
    /** Whether the one-second interval is scheduled. */
    var ticking: bool

    ghost predicate Valid()
      reads this, store
    {
      store.Synced() && ticking == ShouldTick(store.state.currentTimer)
    }

    constructor (store: Store)
      requires store.Synced()
      ensures this.store == store && customDuration == 30
      ensures Valid()
    {
      this.store := store;
      customDuration := 30;
      ticking := ShouldTick(store.state.currentTimer);
    }

    /** The effects after a state change: the completion effect, then the interval's rescheduling. */
    method RunEffects(now: nat)
      requires store.Synced()
      modifies this`ticking, store
      ensures store.state == Settled(old(store.state), now)
      ensures Valid()
    {
      var a := CompletionAction(store.state.currentTimer);
      if a.Some? {
        store.Dispatch(a.value, now);
      }
      ticking := ShouldTick(store.state.currentTimer);
    }

    /** One firing of the interval: only a scheduled interval fires, and it dispatches one tick. */
    method IntervalFired(now: nat)
      requires Valid() && ticking
      modifies this`ticking, store
      ensures ShouldTick(old(store.state.currentTimer))
      ensures store.state == Apply(old(store.state), TickTimer, now)
      ensures Valid()
    {
      store.Dispatch(TickTimer, now);
      TickNeverCompletes(old(store.state), now);
      RunEffects(now);
    }

    /** handleStart, reached from a start button, which shows only while the timer is not active. */
    method Start(minutes: int, kind: TimerKind, now: nat)
      requires Valid() && !Truthy(store.state.currentTimer.isActive)
      modifies this`ticking, store
      ensures store.state == Settled(Apply(old(store.state), StartAction(minutes, kind), now), now)
      ensures Valid()
    {
      store.Dispatch(StartAction(minutes, kind), now);
      RunEffects(now);
    }

    method SetCustomDuration(minutes: int)
      modifies this`customDuration
      ensures customDuration == minutes
    {
      customDuration := minutes;
    }

    /** The custom session's start button, disabled while the timer is active. */
    method StartCustom(now: nat)
      requires Valid() && !Truthy(store.state.currentTimer.isActive)
      modifies this`ticking, store
      ensures store.state == Settled(Apply(old(store.state), StartAction(customDuration, Custom), now), now)
      ensures Valid()
    {
      Start(customDuration, Custom, now);
    }

    /** The pause/resume button, rendered only while the timer is active. */
    method Pause(now: nat)
      requires Valid() && Truthy(store.state.currentTimer.isActive)
      modifies this`ticking, store
      ensures store.state == Settled(Apply(old(store.state), PauseTimer, now), now)
      ensures Valid()
    {
      store.Dispatch(PauseTimer, now);
      RunEffects(now);
    }

    /** The reset button, rendered only while the timer is active. */
    method Reset(now: nat)
      requires Valid() && Truthy(store.state.currentTimer.isActive)
      modifies this`ticking, store
      ensures store.state == Apply(old(store.state), ResetTimer, now)
      ensures !ticking
      ensures Valid()
    {
      store.Dispatch(ResetTimer, now);
      RunEffects(now);
    }
  }
}
