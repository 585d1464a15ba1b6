/** The ambience logic that the controller and the listener share: describeAmbience,
    sendAmbiencePost, cancelAmbiencePost and tick are written out identically in
    scripts/controller/ambience.ts, scripts/listener/ambience.ts and the two index.ts files.
    Both the description and the delay come from the weather state current at the time. */
module AmbienceCore {
  import opened Wrappers
  import opened Config
  import opened Model
  import opened Random
  import opened Host
  import opened StoreUtils
  import opened Channel
  import opened WeatherCore

  /** `isEnabled` of both ambience engines. */
  function AmbienceIsEnabled(s: HostState): bool {
    StoreGetBool(s, AmbienceEnabled)
  }

  /** `describeAmbience`: one description from the current state's pool, if it has any. */
  function DescribeAmbienceSpec(m: WeatherModel, s: HostState, u: Unit): (r: HostState)
    requires DefaultWeatherKeyword in m
    ensures var pool := CurrentState(m, s).ambience.describes;
      && |r.describes| == |s.describes| + (if pool == [] then 0 else 1)
      && r.describes[..|s.describes|] == s.describes
      && (pool != [] ==> r.describes[|s.describes|] in pool)
    ensures r.store == s.store && r.timers == s.timers && r.outbox == s.outbox && r.profile == s.profile
  {
    var describes := CurrentState(m, s).ambience.describes;
    if |describes| > 0 then WithDescribe(s, RandomDescribe(describes, u)) else s
  }

  /** The self-post sendAmbiencePost makes: an `ambience:tick` without data, delayed by a
      draw from the current state's ambience delay range, scaled. */
  function AmbienceTimer(m: WeatherModel, s: HostState, u: Unit): (t: Timer)
    requires DefaultWeatherKeyword in m
    ensures t.topic == AmbienceTick && t.data == None
    ensures var d := CurrentState(m, s).ambience.delay;
      0 <= d.min < d.max ==> d.min / TimeScale <= t.delay <= d.max / TimeScale
  {
    ScaledDelayBetween(CurrentState(m, s).ambience.delay, u);
    Timer(AmbienceTick, None, ScaleDelay(RandomDelay(CurrentState(m, s).ambience.delay, u)))
  }

  /** `sendAmbiencePost`. */
  function SendAmbiencePostSpec(m: WeatherModel, s: HostState, env: Env): HostState
    requires DefaultWeatherKeyword in m
  {
    ReplaceSpec(s, AmbiencePendingPost, AmbienceTimer(m, s, env.ambienceDelay), env.ambiencePost)
  }

  /** `tick`: describe, then schedule the next tick. */
  function TickSpec(m: WeatherModel, s: HostState, env: Env): HostState
    requires DefaultWeatherKeyword in m
  {
    SendAmbiencePostSpec(m, DescribeAmbienceSpec(m, s, env.ambienceDescribe), env)
  }

  method DescribeAmbience(h: Room, m: WeatherModel, u: Unit)
    requires DefaultWeatherKeyword in m
    modifies h
    ensures h.State() == DescribeAmbienceSpec(m, old(h.State()), u)
  {
    var curWeather := CurrentState(m, h.State());
    var describes := curWeather.ambience.describes;
    if |describes| > 0 {
      h.Describe(RandomDescribe(describes, u));
    }
  }

  method SendAmbiencePost(h: Room, m: WeatherModel, env: Env)
    requires DefaultWeatherKeyword in m
    modifies h
    ensures h.State() == SendAmbiencePostSpec(m, old(h.State()), env)
  {
    var curWeather := CurrentState(m, h.State());
    var delay := RandomDelay(curWeather.ambience.delay, env.ambienceDelay);
    var delayScaled := ScaleDelay(delay);
    Replace(h, AmbiencePendingPost, Timer(AmbienceTick, None, delayScaled), env.ambiencePost);
  }

  method Tick(h: Room, m: WeatherModel, env: Env)
    requires DefaultWeatherKeyword in m
    modifies h
    ensures h.State() == TickSpec(m, old(h.State()), env)
  {
    DescribeAmbience(h, m, env.ambienceDescribe);
    SendAmbiencePost(h, m, env);
  }

  /** A disabled ambience engine has no live ambience post. */
  predicate AmbienceQuiet(s: HostState) {
    !AmbienceIsEnabled(s) ==> Live(s, AmbienceTick) == {}
  }

  /** sendAmbiencePost leaves exactly the new post live (none on a null reply), a tick
      without data, and touches neither the weather keys nor the weather post. */
  lemma SendAmbiencePostEffect(m: WeatherModel, s: HostState, env: Env)
    requires DefaultWeatherKeyword in m
    requires Consistent(s) && FreshReply(s, env.ambiencePost)
    ensures var r := SendAmbiencePostSpec(m, s, env);
      && Consistent(r)
      && Live(r, AmbienceTick) == (if env.ambiencePost.Some? then {env.ambiencePost.value} else {})
      && (env.ambiencePost.Some? ==> r.timers[env.ambiencePost.value] == AmbienceTimer(m, s, env.ambienceDelay))
      && Live(r, WeatherTick) == Live(s, WeatherTick)
      && GetString(r, WeatherPendingPost) == GetString(s, WeatherPendingPost)
      && StoredKeyword(m, r) == StoredKeyword(m, s)
      && WeatherIsEnabled(r) == WeatherIsEnabled(s)
      && AmbienceIsEnabled(r) == AmbienceIsEnabled(s)
      && r.outbox == s.outbox && r.describes == s.describes && r.profile == s.profile
  {
    ReplaceOwns(s, AmbienceChannel, WeatherChannel, AmbienceTimer(m, s, env.ambienceDelay), env.ambiencePost);
  }

  /** A tick says something exactly when the current state's pool is non-empty, and
      always schedules the next tick. */
  lemma TickEffect(m: WeatherModel, s: HostState, env: Env)
    requires DefaultWeatherKeyword in m
    requires Consistent(s) && FreshReply(s, env.ambiencePost)
    ensures var r := TickSpec(m, s, env);
      var pool := CurrentState(m, s).ambience.describes;
      && Consistent(r)
      && |r.describes| == |s.describes| + (if pool == [] then 0 else 1)
      && (pool != [] ==> r.describes[|s.describes|] in pool)
      && Live(r, AmbienceTick) == (if env.ambiencePost.Some? then {env.ambiencePost.value} else {})
      && (env.ambiencePost.Some? ==> r.timers[env.ambiencePost.value] == AmbienceTimer(m, s, env.ambienceDelay))
      && Live(r, WeatherTick) == Live(s, WeatherTick)
      && StoredKeyword(m, r) == StoredKeyword(m, s)
      && WeatherIsEnabled(r) == WeatherIsEnabled(s)
      && AmbienceIsEnabled(r) == AmbienceIsEnabled(s)
  {
    var d := DescribeAmbienceSpec(m, s, env.ambienceDescribe);
    ConsistentFrame(s, d);
    assert Live(d, WeatherTick) == Live(s, WeatherTick);
    SendAmbiencePostEffect(m, d, env);
  }

  /** The ambience follows the weather without a restart: after the weather moves to a
      known state, the next description and delay come from that state's profile. */
  lemma AmbienceFollowsWeather(m: WeatherModel, s: HostState, k: string, u: Unit, env: Env)
    requires DefaultWeatherKeyword in m && k in m
    ensures var moved := SetWeatherSpec(m, s, k, u);
      && CurrentState(m, moved).ambience == m[k].ambience
      && AmbienceTimer(m, moved, env.ambienceDelay).delay == ScaleDelay(RandomDelay(m[k].ambience.delay, env.ambienceDelay))
  {
  }
}
