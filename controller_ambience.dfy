/** The controller's ambience engine (namespace ControllerAmbience of
    scripts/controller/ambience.ts and scripts/controller/index.ts). `tick`,
    `describeAmbience` and `sendAmbiencePost` are the shared ones of AmbienceCore;
    the controller raises the flag before posting and lowers it before cancelling. */
module ControllerAmbience {
  import opened Wrappers
  import opened Config
  import opened Model
  import opened Host
  import opened StoreUtils
  import opened Channel
  import opened WeatherCore
  import opened AmbienceCore

  /** `start`: enable, then schedule the first tick. */
  function StartSpec(m: WeatherModel, s: HostState, env: Env): HostState
    requires DefaultWeatherKeyword in m
  {
    SendAmbiencePostSpec(m, StoreSetBoolSpec(s, AmbienceEnabled, true), env)
  }

  /** `stop`: disable, then cancel the pending tick; the token key stays. */
  function StopSpec(s: HostState): HostState {
    CancelSpec(StoreSetBoolSpec(s, AmbienceEnabled, false), AmbiencePendingPost)
  }

  method Start(h: Room, m: WeatherModel, env: Env)
    requires DefaultWeatherKeyword in m
    modifies h
    ensures h.State() == StartSpec(m, old(h.State()), env)
  {
    StoreSetBool(h, AmbienceEnabled, true);
    SendAmbiencePost(h, m, env);
  }

  method Stop(h: Room)
    modifies h
    ensures h.State() == StopSpec(old(h.State()))
  {
    StoreSetBool(h, AmbienceEnabled, false);
    Cancel(h, AmbiencePendingPost);
  }

  /** `start` enables the ambience and leaves exactly one live ambience post (none if the
      host refused it), without data; the weather is untouched. */
  lemma StartEffect(m: WeatherModel, s: HostState, env: Env)
    requires DefaultWeatherKeyword in m
    requires Consistent(s) && FreshReply(s, env.ambiencePost)
    ensures var r := StartSpec(m, s, env);
      && AmbienceIsEnabled(r)
      && Consistent(r)
      && Live(r, AmbienceTick) == (if env.ambiencePost.Some? then {env.ambiencePost.value} else {})
      && (env.ambiencePost.Some? ==> r.timers[env.ambiencePost.value].data == None)
      && Live(r, WeatherTick) == Live(s, WeatherTick)
      && StoredKeyword(m, r) == StoredKeyword(m, s)
      && WeatherIsEnabled(r) == WeatherIsEnabled(s)
      && GetString(r, WeatherPendingPost) == GetString(s, WeatherPendingPost)
      && r.outbox == s.outbox && r.describes == s.describes
  {
    var enabled := StoreSetBoolSpec(s, AmbienceEnabled, true);
    ConsistentFrame(s, enabled);
    assert Live(enabled, WeatherTick) == Live(s, WeatherTick);
    SendAmbiencePostEffect(m, enabled, env);
  }

  /** `stop` disables the ambience and leaves no live ambience post; the weather is untouched. */
  lemma StopEffect(m: WeatherModel, s: HostState)
    requires Consistent(s)
    ensures var r := StopSpec(s);
      && !AmbienceIsEnabled(r)
      && Consistent(r)
      && Live(r, AmbienceTick) == {}
      && Live(r, WeatherTick) == Live(s, WeatherTick)
      && StoredKeyword(m, r) == StoredKeyword(m, s)
      && WeatherIsEnabled(r) == WeatherIsEnabled(s)
      && GetString(r, WeatherPendingPost) == GetString(s, WeatherPendingPost)
      && r.outbox == s.outbox && r.describes == s.describes
  {
    var disabled := StoreSetBoolSpec(s, AmbienceEnabled, false);
    ConsistentFrame(s, disabled);
    CancelClears(disabled, AmbienceChannel, WeatherChannel);
  }
}
