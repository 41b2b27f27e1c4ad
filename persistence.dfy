/**
 * The subset of the state the provider writes to storage after each change,
 * how that record comes back as a LOAD_FROM_STORAGE payload, and the
 * hour-to-greeting rule the provider applies through the same action.
 */
module Persistence {
  import opened Optional
  import opened State
  import opened Reducer

  /** The stored timer: only its colour. */
  datatype SavedTimer = SavedTimer(customColor: Option<string>)

  /** The stored record. */
  datatype Saved = Saved(
    dailyFocus: string,
    tasks: seq<Task>,
    bmi: Bmi,
    music: Music,
    notes: string,
    backgroundTheme: Theme,
    currentTimer: SavedTimer)

  /** The save projection. */
  function Save(s: AppState): Saved {
    Saved(s.dailyFocus, s.tasks, s.bmi, s.music, s.notes, s.backgroundTheme, SavedTimer(s.currentTimer.customColor))
  }

  /** A stored timer read back: a timer record with nothing but the colour. */
  function RestoredTimer(t: SavedTimer): Timer {
    Timer(None, None, None, None, None, t.customColor)
  }

  /** The stored record read back as a partial state: its seven fields present, the rest absent. */
  function AsPayload(r: Saved): StatePatch {
    StatePatch(Some(r.dailyFocus), Some(r.tasks), Some(RestoredTimer(r.currentTimer)), Some(r.bmi),
               Some(r.music), Some(r.notes), None, None, None, Some(r.backgroundTheme))
  }

  /**
   * Loading a saved record brings back the six saved fields, replaces the
   * whole timer by one that has only the colour, and keeps the quote, the
   * greeting and the background image of the state it is loaded into.
   */
  lemma LoadRestoresSaved(s: AppState, t: AppState, now: nat)
    ensures var r := Apply(t, LoadFromStorage(AsPayload(Save(s))), now);
      && r.dailyFocus == s.dailyFocus && r.tasks == s.tasks && r.bmi == s.bmi
      && r.music == s.music && r.notes == s.notes && r.backgroundTheme == s.backgroundTheme
      && r.currentTimer == Timer(None, None, None, None, None, s.currentTimer.customColor)
      && r.quote == t.quote && r.greeting == t.greeting && r.backgroundImage == t.backgroundImage
  {
  }

  /** Saving what was loaded gives back the record that was loaded. */
  lemma SaveLoadRoundTrip(s: AppState, t: AppState, now: nat)
    ensures Save(Apply(t, LoadFromStorage(AsPayload(Save(s))), now)) == Save(s)
  {
  }

  /**
   * A restored timer is idle: it does not tick, it shows no countdown, and
   * since its kind is gone, a reset gives it the 30-minute custom default.
   */
  lemma RestoredTimerForgetsKind(s: AppState, t: AppState, now: nat)
    ensures var r := Apply(t, LoadFromStorage(AsPayload(Save(s))), now);
      && !Truthy(r.currentTimer.isActive) && r.currentTimer.timeLeft.None?
      && Apply(r, ResetTimer, now).currentTimer.timeLeft == Some(CustomSeconds)
  {
  }

  /** The greeting for an hour of the day. */
  function GreetingFor(hour: int): string {
    if 12 <= hour < 17 then "Good afternoon"
    else if hour >= 17 then "Good evening"
    else "Good morning"
  }

  /** The greeting bands: before noon, noon to five, five onwards. */
  lemma GreetingBands(hour: int)
    ensures GreetingFor(hour) == "Good morning" <==> hour < 12
    ensures GreetingFor(hour) == "Good afternoon" <==> 12 <= hour < 17
    ensures GreetingFor(hour) == "Good evening" <==> 17 <= hour
  {
  }

  /** The greeting refresh: a LOAD_FROM_STORAGE of the new greeting, only when it differs. */
  function GreetingUpdate(s: AppState, hour: int): Option<Action> {
    var g := GreetingFor(hour);
    if s.greeting != g then Some(LoadFromStorage(NoStateChanges.(greeting := Some(g)))) else None
  }

  /** After a refresh the greeting is the hour's and nothing else has changed; a second refresh does nothing. */
  lemma GreetingUpdateSettles(s: AppState, hour: int, now: nat)
    ensures var r := match GreetingUpdate(s, hour) case Some(a) => Apply(s, a, now) case None => s;
      && r == s.(greeting := GreetingFor(hour))
      && GreetingUpdate(r, hour) == None
  {
  }
}
