/** The listener's weather engine (namespace ListenerWeather of
    scripts/listener/weather.ts and scripts/listener/index.ts): it only follows the
    controller, so it neither broadcasts nor schedules; the flag just gates incoming ticks. */
module ListenerWeather {
  import opened Config
  import opened Model
  import opened Random
  import opened Host
  import opened StoreUtils
  import opened WeatherCore

  /** `start`. */
  function StartSpec(s: HostState): HostState {
    StoreSetBoolSpec(s, WeatherEnabled, true)
  }

  /** `stop`. */
  function StopSpec(s: HostState): HostState {
    StoreSetBoolSpec(s, WeatherEnabled, false)
  }

  /** `set`: exactly `setWeather`. */
  function SetSpec(m: WeatherModel, s: HostState, k: string, u: Unit): HostState
    requires DefaultWeatherKeyword in m
  {
    SetWeatherSpec(m, s, k, u)
  }

  method Start(h: Room)
    modifies h
    ensures h.State() == StartSpec(old(h.State()))
  {
    StoreSetBool(h, WeatherEnabled, true);
  }

  method Stop(h: Room)
    modifies h
    ensures h.State() == StopSpec(old(h.State()))
  {
    StoreSetBool(h, WeatherEnabled, false);
  }

  method Set(h: Room, m: WeatherModel, k: string, u: Unit)
    requires DefaultWeatherKeyword in m
    modifies h
    ensures h.State() == SetSpec(m, old(h.State()), k, u)
  {
    SetWeather(h, m, k, u);
  }

  /** `start` and `stop` only move the flag: no post, no cancel, no other key, and
      `isEnabled` then reports the call last made. */
  lemma StartStopOnlyFlag(m: WeatherModel, s: HostState, on: bool)
    ensures var r := if on then StartSpec(s) else StopSpec(s);
      && WeatherIsEnabled(r) == on
      && r.timers == s.timers && r.outbox == s.outbox && r.describes == s.describes
      && StoredKeyword(m, r) == StoredKeyword(m, s)
      && StoreGetBool(r, AmbienceEnabled) == StoreGetBool(s, AmbienceEnabled)
      && GetString(r, AmbiencePendingPost) == GetString(s, AmbiencePendingPost)
      && GetString(r, WeatherPendingPost) == GetString(s, WeatherPendingPost)
  {
  }

  /** `set` applies the keyword and nothing else: no post to anyone, no timer. */
  lemma SetOnlyApplies(m: WeatherModel, s: HostState, k: string, u: Unit)
    requires DefaultWeatherKeyword in m
    ensures var r := SetSpec(m, s, k, u);
      && StoredKeyword(m, r) == Resolve(m, StoredKeyword(m, s), k)
      && r.outbox == s.outbox && r.timers == s.timers
      && WeatherIsEnabled(r) == WeatherIsEnabled(s)
      && StoreGetBool(r, AmbienceEnabled) == StoreGetBool(s, AmbienceEnabled)
      && GetString(r, AmbiencePendingPost) == GetString(s, AmbiencePendingPost)
      && GetString(r, WeatherPendingPost) == GetString(s, WeatherPendingPost)
  {
  }
}
