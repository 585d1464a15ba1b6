/** The listener's ambience engine (namespace ListenerAmbience of
    scripts/listener/ambience.ts and scripts/listener/index.ts). `tick`,
    `describeAmbience` and `sendAmbiencePost` are the shared ones of AmbienceCore;
    unlike the controller, the listener posts before raising the flag and cancels
    before lowering it. */
module ListenerAmbience {
  import opened Config
  import opened Model
  import opened Host
  import opened StoreUtils
  import opened Channel
  import opened AmbienceCore

  /** `start`: schedule the first tick, then enable. */
  function StartSpec(m: WeatherModel, s: HostState, env: Env): HostState
    requires DefaultWeatherKeyword in m
  {
    StoreSetBoolSpec(SendAmbiencePostSpec(m, s, env), AmbienceEnabled, true)
  }

  /** `stop`: cancel the pending tick, then disable; the token key stays. */
  function StopSpec(s: HostState): HostState {
    StoreSetBoolSpec(CancelSpec(s, AmbiencePendingPost), AmbienceEnabled, false)
  }

  method Start(h: Room, m: WeatherModel, env: Env)
    requires DefaultWeatherKeyword in m
    modifies h
    ensures h.State() == StartSpec(m, old(h.State()), env)
  {
    SendAmbiencePost(h, m, env);
    StoreSetBool(h, AmbienceEnabled, true);
  }

  method Stop(h: Room)
    modifies h
    ensures h.State() == StopSpec(old(h.State()))
  {
    Cancel(h, AmbiencePendingPost);
    StoreSetBool(h, AmbienceEnabled, false);
  }
}
