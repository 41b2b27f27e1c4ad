/**
 * The provider: the one mutable holder of the application state. Dispatching
 * replaces the state by the reducer's result; the save effect then writes the
 * save projection to storage whenever one of its fields changed.
 */
module Provider {
  import opened Optional
  import opened State
  import opened Reducer
  import opened Persistence

  class Store {
    var state: AppState
    /** The record stored under the application's storage key, as it reads back. */
    var storage: Option<Saved>

    /** Storage holds the save projection of the current state. */
    ghost predicate Synced()
      reads this
    {
      storage == Some(Save(state))
    }

    /**
     * Mounting: the default state, then the stored record if one could be
     * read (`stored` is None when the key is missing or the text is not
     * valid JSON), then the first run of the save effect.
     */
    constructor (stored: Option<StatePatch>, now: nat)
      ensures state == if stored.Some? then Apply(InitialState, LoadFromStorage(stored.value), now) else InitialState
      ensures Synced()
    {
      var s := InitialState;
      if stored.Some? {
        s := Apply(s, LoadFromStorage(stored.value), now);
      }
      state := s;
      storage := Some(Save(s));
    }

    method Dispatch(a: Action, now: nat)
      requires Admissible(a) && Synced()
      modifies this
      ensures state == Apply(old(state), a, now)
      ensures Synced()
    {
      var before := Save(state);
      state := Apply(state, a, now);
      if Save(state) != before {
        storage := Some(Save(state));
      }
    }

    /** The minute-by-minute greeting refresh, given the current hour. */
    method RefreshGreeting(hour: int, now: nat)
      requires Synced()
      modifies this
      ensures state == old(state).(greeting := GreetingFor(hour))
      ensures Synced()
    {
      var a := GreetingUpdate(state, hour);
      if a.Some? {
        Dispatch(a.value, now);
      }
    }
  }
}
