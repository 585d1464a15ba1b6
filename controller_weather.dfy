/** The controller's weather engine (namespace ControllerWeather of
    scripts/controller/weather.ts and scripts/controller/index.ts): it owns the
    weather, broadcasts every change to the listeners and keeps one pending
    `weather:tick` self-post that carries the next keyword. */
module ControllerWeather {
  import opened Wrappers
  import opened Config
  import opened Model
  import opened Random
  import opened Host
  import opened StoreUtils
  import opened Channel
  import opened WeatherCore

  /** The posts of `sendUpdatePost`: one `weather:tick` with the keyword to each address,
      in order. */
  function Broadcast(addrs: seq<string>, k: string): (r: seq<Message>)
    ensures |r| == |addrs|
    ensures forall i :: 0 <= i < |addrs| ==> r[i] == Message(addrs[i], WeatherTick, Some(k))
  {
    if addrs == [] then [] else Broadcast(addrs[..|addrs| - 1], k) + [Message(addrs[|addrs| - 1], WeatherTick, Some(k))]
  }

  /** `sendUpdatePost`: tell every listener the current keyword. */
  function SendUpdatePostSpec(m: WeatherModel, s: HostState): HostState
    requires DefaultWeatherKeyword in m
  {
    s.(outbox := s.outbox + Broadcast(ListenerRoomScripts, StoredKeyword(m, s)))
  }

  /** The self-post of `sendDelayedPost`: the next keyword is drawn now, from the current
      state's transitions, and the delay from its duration, scaled. */
  function NextWeatherTimer(m: WeatherModel, s: HostState, env: Env): (t: Timer)
    requires DefaultWeatherKeyword in m
    ensures t.topic == WeatherTick && t.data.Some?
    ensures var cur := CurrentState(m, s);
      TotalWeight(cur.transitions) > 0 ==>
        exists i :: 0 <= i < |cur.transitions| && cur.transitions[i].target == t.data.value
                    && cur.transitions[i].transition.weight > 0
    ensures TotalWeight(CurrentState(m, s).transitions) == 0 ==> t.data == Some(DefaultWeatherKeyword)
    ensures var dur := CurrentState(m, s).duration;
      0 <= dur.min < dur.max ==> dur.min / TimeScale <= t.delay <= dur.max / TimeScale
  {
    var curWeather := CurrentState(m, s);
    TransitionKeyOutcome(curWeather.transitions, env.pick);
    ScaledDelayBetween(curWeather.duration, env.delay);
    Timer(WeatherTick, Some(TransitionKey(curWeather.transitions, env.pick)),
          ScaleDelay(RandomDelay(curWeather.duration, env.delay)))
  }

  /** `sendDelayedPost`. */
  function SendDelayedPostSpec(m: WeatherModel, s: HostState, env: Env): HostState
    requires DefaultWeatherKeyword in m
  {
    ReplaceSpec(s, WeatherPendingPost, NextWeatherTimer(m, s, env), env.weatherPost)
  }

  /** `set`: apply the keyword, broadcast, and reschedule only while enabled. */
  function SetSpec(m: WeatherModel, s: HostState, k: string, env: Env): HostState
    requires DefaultWeatherKeyword in m
  {
    var updated := SendUpdatePostSpec(m, SetWeatherSpec(m, s, k, env.narrate));
    if WeatherIsEnabled(updated) then SendDelayedPostSpec(m, updated, env) else updated
  }

  /** `start`: enable, re-apply the current weather (the empty keyword never names a state),
      broadcast and schedule. */
  function StartSpec(m: WeatherModel, s: HostState, env: Env): HostState
    requires DefaultWeatherKeyword in m
  {
    var enabled := StoreSetBoolSpec(s, WeatherEnabled, true);
    SendDelayedPostSpec(m, SendUpdatePostSpec(m, SetWeatherSpec(m, enabled, "", env.narrate)), env)
  }

  /** `stop`: disable and cancel the pending post; the token key itself stays. */
  function StopSpec(s: HostState): HostState {
    CancelSpec(StoreSetBoolSpec(s, WeatherEnabled, false), WeatherPendingPost)
  }

  method SendUpdatePost(h: Room, m: WeatherModel)
    requires DefaultWeatherKeyword in m
    modifies h
    ensures h.State() == SendUpdatePostSpec(m, old(h.State()))
  {
    var data := StoredKeyword(m, h.State());
    ghost var s0 := h.State();
    for i := 0 to |ListenerRoomScripts|
      invariant h.State() == s0.(outbox := s0.outbox + Broadcast(ListenerRoomScripts[..i], data))
    {
      h.Post(ListenerRoomScripts[i], WeatherTick, Some(data));
      assert ListenerRoomScripts[..i + 1][..i] == ListenerRoomScripts[..i];
    }
    assert ListenerRoomScripts[..|ListenerRoomScripts|] == ListenerRoomScripts;
  }

  method SendDelayedPost(h: Room, m: WeatherModel, env: Env)
    requires Configured(m)
    modifies h
    ensures h.State() == SendDelayedPostSpec(m, old(h.State()), env)
  {
    var curWeather := CurrentState(m, h.State());
    var nextWeatherKeyword := RandomTransitionKey(curWeather.transitions, env.pick);
    var delay := RandomDelay(curWeather.duration, env.delay);
    var delayScaled := ScaleDelay(delay);
    Replace(h, WeatherPendingPost, Timer(WeatherTick, Some(nextWeatherKeyword), delayScaled), env.weatherPost);
  }

  method Set(h: Room, m: WeatherModel, k: string, env: Env)
    requires Configured(m)
    modifies h
    ensures h.State() == SetSpec(m, old(h.State()), k, env)
  {
    SetWeather(h, m, k, env.narrate);
    SendUpdatePost(h, m);
    if WeatherIsEnabled(h.State()) {
      SendDelayedPost(h, m, env);
    }
  }

  method Start(h: Room, m: WeatherModel, env: Env)
    requires Configured(m)
    modifies h
    ensures h.State() == StartSpec(m, old(h.State()), env)
  {
    StoreSetBool(h, WeatherEnabled, true);
    SetWeather(h, m, "", env.narrate);
    SendUpdatePost(h, m);
    SendDelayedPost(h, m, env);
  }

  method Stop(h: Room)
    modifies h
    ensures h.State() == StopSpec(old(h.State()))
  {
    StoreSetBool(h, WeatherEnabled, false);
    Cancel(h, WeatherPendingPost);
  }

  /** A disabled weather engine has no live weather post. */
  predicate WeatherQuiet(s: HostState) {
    !WeatherIsEnabled(s) ==> Live(s, WeatherTick) == {}
  }

  /** sendDelayedPost leaves exactly the new post live on the weather channel, carrying the
      keyword drawn from the current state, and leaves the ambience channel and every
      other key alone. */
  lemma SendDelayedPostEffect(m: WeatherModel, s: HostState, env: Env)
    requires DefaultWeatherKeyword in m
    requires Consistent(s) && FreshReply(s, env.weatherPost)
    ensures var r := SendDelayedPostSpec(m, s, env);
      && Consistent(r)
      && Live(r, WeatherTick) == (if env.weatherPost.Some? then {env.weatherPost.value} else {})
      && (env.weatherPost.Some? ==> r.timers[env.weatherPost.value] == NextWeatherTimer(m, s, env))
      && Live(r, AmbienceTick) == Live(s, AmbienceTick)
      && GetString(r, AmbiencePendingPost) == GetString(s, AmbiencePendingPost)
      && StoredKeyword(m, r) == StoredKeyword(m, s)
      && WeatherIsEnabled(r) == WeatherIsEnabled(s)
      && StoreGetBool(r, AmbienceEnabled) == StoreGetBool(s, AmbienceEnabled)
      && r.outbox == s.outbox && r.describes == s.describes && r.profile == s.profile
  {
    ReplaceOwns(s, WeatherChannel, AmbienceChannel, NextWeatherTimer(m, s, env), env.weatherPost);
  }

  /** `set` applies the resolved keyword and always broadcasts it to every listener, in
      order, whether or not the weather is enabled; the enabled flag is unchanged. */
  lemma SetBroadcasts(m: WeatherModel, s: HostState, k: string, env: Env)
    requires DefaultWeatherKeyword in m
    ensures var r := SetSpec(m, s, k, env);
      var resolved := Resolve(m, StoredKeyword(m, s), k);
      && StoredKeyword(m, r) == resolved
      && r.profile == Some(resolved)
      && r.outbox == s.outbox + Broadcast(ListenerRoomScripts, resolved)
      && r.describes == s.describes + Narration(m, StoredKeyword(m, s), k, env.narrate)
      && WeatherIsEnabled(r) == WeatherIsEnabled(s)
      && StoreGetBool(r, AmbienceEnabled) == StoreGetBool(s, AmbienceEnabled)
  {
    var applied := SetWeatherSpec(m, s, k, env.narrate);
    var updated := SendUpdatePostSpec(m, applied);
    if WeatherIsEnabled(updated) {
      SendDelayedPostEffectFrame(m, updated, env);
    }
  }

  /** The parts of sendDelayedPost's effect that hold without any token invariant. */
  lemma SendDelayedPostEffectFrame(m: WeatherModel, s: HostState, env: Env)
    requires DefaultWeatherKeyword in m
    ensures var r := SendDelayedPostSpec(m, s, env);
      && StoredKeyword(m, r) == StoredKeyword(m, s)
      && WeatherIsEnabled(r) == WeatherIsEnabled(s)
      && StoreGetBool(r, AmbienceEnabled) == StoreGetBool(s, AmbienceEnabled)
      && r.outbox == s.outbox && r.describes == s.describes && r.profile == s.profile
  {
  }

  /** While enabled, `set` replaces the pending post by one whose keyword is drawn from the
      transitions of the state just entered and whose delay comes from that state's duration. */
  lemma SetReschedulesWhenEnabled(m: WeatherModel, s: HostState, k: string, env: Env)
    requires DefaultWeatherKeyword in m
    requires Consistent(s) && FreshReply(s, env.weatherPost)
    requires WeatherIsEnabled(s)
    ensures var r := SetSpec(m, s, k, env);
      var entered := m[Resolve(m, StoredKeyword(m, s), k)];
      var next := Timer(WeatherTick, Some(TransitionKey(entered.transitions, env.pick)),
                        ScaleDelay(RandomDelay(entered.duration, env.delay)));
      && Consistent(r)
      && Live(r, WeatherTick) == (if env.weatherPost.Some? then {env.weatherPost.value} else {})
      && (env.weatherPost.Some? ==> r.timers[env.weatherPost.value] == next)
      && Live(r, AmbienceTick) == Live(s, AmbienceTick)
  {
    var applied := SetWeatherSpec(m, s, k, env.narrate);
    var updated := SendUpdatePostSpec(m, applied);
    ConsistentFrame(s, updated);
    assert Live(updated, AmbienceTick) == Live(s, AmbienceTick);
    SendDelayedPostEffect(m, updated, env);
  }

  /** While disabled, `set` schedules nothing: the timers and the token stay as they were. */
  lemma SetDisabledKeepsTimers(m: WeatherModel, s: HostState, k: string, env: Env)
    requires DefaultWeatherKeyword in m
    requires !WeatherIsEnabled(s)
    ensures var r := SetSpec(m, s, k, env);
      && r.timers == s.timers
      && GetString(r, WeatherPendingPost) == GetString(s, WeatherPendingPost)
      && GetString(r, AmbiencePendingPost) == GetString(s, AmbiencePendingPost)
  {
  }

  /** `start` enables the weather and leaves exactly the new post live, with a keyword
      payload; the ambience is untouched. */
  lemma StartEffect(m: WeatherModel, s: HostState, env: Env)
    requires DefaultWeatherKeyword in m
    requires Consistent(s) && FreshReply(s, env.weatherPost)
    ensures var r := StartSpec(m, s, env);
      && WeatherIsEnabled(r)
      && Consistent(r)
      && Live(r, WeatherTick) == (if env.weatherPost.Some? then {env.weatherPost.value} else {})
      && Live(r, AmbienceTick) == Live(s, AmbienceTick)
      && StoreGetBool(r, AmbienceEnabled) == StoreGetBool(s, AmbienceEnabled)
  {
    var enabled := StoreSetBoolSpec(s, WeatherEnabled, true);
    ConsistentFrame(s, enabled);
    var applied := SetWeatherSpec(m, enabled, "", env.narrate);
    var updated := SendUpdatePostSpec(m, applied);
    ConsistentFrame(enabled, updated);
    assert Live(updated, AmbienceTick) == Live(s, AmbienceTick);
    SendDelayedPostEffect(m, updated, env);
  }

  /** The empty keyword is not a state, so `start` keeps the resolved keyword, broadcasts
      it, and schedules from the state the weather was already in. */
  lemma StartKeepsKeyword(m: WeatherModel, s: HostState, env: Env)
    requires DefaultWeatherKeyword in m && "" !in m
    ensures var r := StartSpec(m, s, env);
      && StoredKeyword(m, r) == StoredKeyword(m, s)
      && r.profile == Some(StoredKeyword(m, s))
      && r.outbox == s.outbox + Broadcast(ListenerRoomScripts, StoredKeyword(m, s))
      && r.describes == s.describes + Narration(m, StoredKeyword(m, s), "", env.narrate)
      && (env.weatherPost.Some? ==> r.timers[env.weatherPost.value] == NextWeatherTimer(m, s, env))
  {
    var enabled := StoreSetBoolSpec(s, WeatherEnabled, true);
    assert StoredKeyword(m, enabled) == StoredKeyword(m, s);
    var updated := SendUpdatePostSpec(m, SetWeatherSpec(m, enabled, "", env.narrate));
    assert CurrentState(m, updated) == CurrentState(m, s);
    SendDelayedPostEffectFrame(m, updated, env);
  }

  /** `stop` disables the weather and leaves no live weather post; the keyword and the
      (now stale) token key are kept, and the ambience is untouched. */
  lemma StopEffect(m: WeatherModel, s: HostState)
    requires Consistent(s)
    ensures var r := StopSpec(s);
      && !WeatherIsEnabled(r)
      && Live(r, WeatherTick) == {}
      && Consistent(r)
      && StoredKeyword(m, r) == StoredKeyword(m, s)
      && GetString(r, WeatherPendingPost) == GetString(s, WeatherPendingPost)
      && Live(r, AmbienceTick) == Live(s, AmbienceTick)
      && StoreGetBool(r, AmbienceEnabled) == StoreGetBool(s, AmbienceEnabled)
      && r.outbox == s.outbox && r.describes == s.describes
  {
    var disabled := StoreSetBoolSpec(s, WeatherEnabled, false);
    ConsistentFrame(s, disabled);
    CancelClears(disabled, WeatherChannel, AmbienceChannel);
  }

  /** However often the weather is started in a row, a single weather post is live. */
  lemma StartTwiceOneLive(m: WeatherModel, s: HostState, env1: Env, env2: Env)
    requires DefaultWeatherKeyword in m
    requires Consistent(s) && FreshReply(s, env1.weatherPost)
    requires FreshReply(StartSpec(m, s, env1), env2.weatherPost)
    ensures |Live(StartSpec(m, StartSpec(m, s, env1), env2), WeatherTick)| <= 1
  {
    StartEffect(m, s, env1);
    StartEffect(m, StartSpec(m, s, env1), env2);
  }

  /** Every weather operation keeps "disabled implies no live weather post". */
  lemma WeatherQuietPreserved(m: WeatherModel, s: HostState, k: string, env: Env)
    requires DefaultWeatherKeyword in m
    requires Consistent(s) && WeatherQuiet(s)
    ensures WeatherQuiet(StartSpec(m, s, env))
    ensures WeatherQuiet(StopSpec(s))
    ensures WeatherQuiet(SetSpec(m, s, k, env))
  {
    StopEffect(m, s);
    var enabled := StoreSetBoolSpec(s, WeatherEnabled, true);
    var applied := SetWeatherSpec(m, enabled, "", env.narrate);
    var updated := SendUpdatePostSpec(m, applied);
    SendDelayedPostEffectFrame(m, updated, env);
    if WeatherIsEnabled(s) {
      SendDelayedPostEffectFrame(m, SendUpdatePostSpec(m, SetWeatherSpec(m, s, k, env.narrate)), env);
    }
  }
}
