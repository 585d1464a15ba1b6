/** The controller script's event handlers (namespace Controller of
    scripts/controller/controller.ts and scripts/controller/index.ts): commands from
    whitelisted characters, messages from itself and from the listeners, and activation. */
module Controller {
  import opened Wrappers
  import opened Config
  import opened Model
  import opened Random
  import opened Host
  import opened StoreUtils
  import opened Channel
  import opened WeatherCore
  import opened AmbienceCore
  import ControllerWeather
  import ControllerAmbience

  const WeatherEnabledText: string := "*beep boop* WEATHER ENABLED"
  const WeatherDisabledText: string := "*beep boop* WEATHER DISABLED"
  const AmbienceEnabledText: string := "*beep boop* AMBIENCE ENABLED"
  const AmbienceDisabledText: string := "*beep boop* AMBIENCE DISABLED"

  function OverrideText(k: string): string { "*beep boop* WEATHER OVERRIDE: " + k }
  function ExternalOverrideText(k: string): string { "*beep boop* EXTERNAL WEATHER OVERRIDE: " + k }

  /** `onActivate`, restart part: each engine restarts only if its persisted flag is set. */
  function OnActivateSpec(m: WeatherModel, s: HostState, env: Env): HostState
    requires DefaultWeatherKeyword in m
  {
    var afterWeather := if WeatherIsEnabled(s) then ControllerWeather.StartSpec(m, s, env) else s;
    if AmbienceIsEnabled(afterWeather) then ControllerAmbience.StartSpec(m, afterWeather, env) else afterWeather
  }

  /** `onCommand`. A rejected command (not whitelisted, already on or off, unknown keyword)
      only replies to the character, which is not part of the room's state. */
  function OnCommandSpec(m: WeatherModel, s: HostState, cmd: CmdAction, env: Env): HostState
    requires DefaultWeatherKeyword in m
  {
    if cmd.charId !in CommandWhiteList then s
    else if cmd.keyword == WeatherOn then
      if WeatherIsEnabled(s) then s
      else WithDescribe(ControllerWeather.StartSpec(m, s, env), WeatherEnabledText)
    else if cmd.keyword == WeatherOff then
      if !WeatherIsEnabled(s) then s
      else WithDescribe(ControllerWeather.StopSpec(s), WeatherDisabledText)
    else if cmd.keyword == AmbienceOn then
      if AmbienceIsEnabled(s) then s
      else WithDescribe(ControllerAmbience.StartSpec(m, s, env), AmbienceEnabledText)
    else if cmd.keyword == AmbienceOff then
      if !AmbienceIsEnabled(s) then s
      else WithDescribe(ControllerAmbience.StopSpec(s), AmbienceDisabledText)
    else if cmd.keyword == WeatherOverride then
      if cmd.data !in m then s
      else WithDescribe(ControllerWeather.SetSpec(m, s, cmd.data, env), OverrideText(cmd.data))
    else s
  }

  /** `onMessage`: self-posts drive the two engines with no enabled check; another script
      may only ask for a weather override, which must name a state. */
  function OnMessageSpec(m: WeatherModel, s: HostState, addr: string, topic: string, data: Option<string>, env: Env): HostState
    requires DefaultWeatherKeyword in m
  {
    if addr == SelfAddress then
      if topic == WeatherTick then
        if data.None? then s else ControllerWeather.SetSpec(m, s, data.value, env)
      else if topic == AmbienceTick then TickSpec(m, s, env)
      else s
    else if topic == WeatherOverride then
      if data.None? || data.value !in m then s
      else WithDescribe(ControllerWeather.SetSpec(m, s, data.value, env), ExternalOverrideText(data.value))
    else s
  }

  /** The host delivering the live self-post `id`: it stops being pending and arrives at
      `onMessage` from "#". */
  function DeliverSpec(m: WeatherModel, s: HostState, id: string, env: Env): HostState
    requires DefaultWeatherKeyword in m
    requires id in s.timers
  {
    var t := s.timers[id];
    OnMessageSpec(m, WithoutTimer(s, id), SelfAddress, t.topic, t.data, env)
  }

  method OnActivate(h: Room, m: WeatherModel, env: Env)
    requires Configured(m)
    modifies h
    ensures h.State() == OnActivateSpec(m, old(h.State()), env)
  {
    var weatherEnabled := WeatherIsEnabled(h.State());
    if weatherEnabled {
      ControllerWeather.Start(h, m, env);
    }
    var ambienceEnabled := AmbienceIsEnabled(h.State());
    if ambienceEnabled {
      ControllerAmbience.Start(h, m, env);
    }
  }

  method OnCommand(h: Room, m: WeatherModel, cmd: CmdAction, env: Env)
    requires Configured(m)
    modifies h
    ensures h.State() == OnCommandSpec(m, old(h.State()), cmd, env)
  {
    if cmd.charId !in CommandWhiteList {
      return;
    }
    if cmd.keyword == WeatherOn {
      if WeatherIsEnabled(h.State()) {
        return;
      }
      ControllerWeather.Start(h, m, env);
      h.Describe(WeatherEnabledText);
    } else if cmd.keyword == WeatherOff {
      if !WeatherIsEnabled(h.State()) {
        return;
      }
      ControllerWeather.Stop(h);
      h.Describe(WeatherDisabledText);
    } else if cmd.keyword == AmbienceOn {
      if AmbienceIsEnabled(h.State()) {
        return;
      }
      ControllerAmbience.Start(h, m, env);
      h.Describe(AmbienceEnabledText);
    } else if cmd.keyword == AmbienceOff {
      if !AmbienceIsEnabled(h.State()) {
        return;
      }
      ControllerAmbience.Stop(h);
      h.Describe(AmbienceDisabledText);
    } else if cmd.keyword == WeatherOverride {
      if cmd.data !in m {
        return;
      }
      ControllerWeather.Set(h, m, cmd.data, env);
      h.Describe(OverrideText(cmd.data));
    }
  }

  method OnMessage(h: Room, m: WeatherModel, addr: string, topic: string, data: Option<string>, env: Env)
    requires Configured(m)
    modifies h
    ensures h.State() == OnMessageSpec(m, old(h.State()), addr, topic, data, env)
  {
    if addr == SelfAddress {
      if topic == WeatherTick {
        if data.None? {
          return;
        }
        ControllerWeather.Set(h, m, data.value, env);
      } else if topic == AmbienceTick {
        Tick(h, m, env);
      }
    } else {
      if topic == WeatherOverride {
        if data.None? {
          return;
        }
        if data.value !in m {
          return;
        }
        ControllerWeather.Set(h, m, data.value, env);
        h.Describe(ExternalOverrideText(data.value));
      }
    }
  }

  /** The controller's invariant: one live post per channel, the recorded one, and no
      live post on a disabled engine. */
  predicate Inv(s: HostState) {
    Consistent(s) && ControllerWeather.WeatherQuiet(s) && AmbienceQuiet(s)
  }

  /** A command from outside the whitelist, `weather on` while on, `weather off` while off,
      the same for the ambience, and an override to an unknown keyword change nothing. */
  lemma RejectedCommandsChangeNothing(m: WeatherModel, s: HostState, cmd: CmdAction, env: Env)
    requires DefaultWeatherKeyword in m
    requires || cmd.charId !in CommandWhiteList
             || (cmd.keyword == WeatherOn && WeatherIsEnabled(s))
             || (cmd.keyword == WeatherOff && !WeatherIsEnabled(s))
             || (cmd.keyword == AmbienceOn && AmbienceIsEnabled(s))
             || (cmd.keyword == AmbienceOff && !AmbienceIsEnabled(s))
             || (cmd.keyword == WeatherOverride && cmd.data !in m)
    ensures OnCommandSpec(m, s, cmd, env) == s
  {
  }

  /** `weather on` while off starts the weather: enabled, one live weather post, the
      announcement said last. */
  lemma WeatherOnStarts(m: WeatherModel, s: HostState, cmd: CmdAction, env: Env)
    requires DefaultWeatherKeyword in m
    requires cmd.charId in CommandWhiteList && cmd.keyword == WeatherOn && !WeatherIsEnabled(s)
    requires Consistent(s) && FreshReply(s, env.weatherPost)
    ensures var r := OnCommandSpec(m, s, cmd, env);
      && WeatherIsEnabled(r)
      && Live(r, WeatherTick) == (if env.weatherPost.Some? then {env.weatherPost.value} else {})
      && r.describes[|r.describes| - 1] == WeatherEnabledText
  {
    ControllerWeather.StartEffect(m, s, env);
  }

  /** `weather off` while on stops it: disabled and no live weather post. */
  lemma WeatherOffStops(m: WeatherModel, s: HostState, cmd: CmdAction, env: Env)
    requires DefaultWeatherKeyword in m
    requires cmd.charId in CommandWhiteList && cmd.keyword == WeatherOff && WeatherIsEnabled(s)
    requires Consistent(s)
    ensures var r := OnCommandSpec(m, s, cmd, env);
      && !WeatherIsEnabled(r)
      && Live(r, WeatherTick) == {}
      && StoredKeyword(m, r) == StoredKeyword(m, s)
      && r.describes == s.describes + [WeatherDisabledText]
  {
    ControllerWeather.StopEffect(m, s);
  }

  /** `ambience on` while off enables it with one live ambience post; `ambience off` while on
      disables it with none. */
  lemma AmbienceOnOff(m: WeatherModel, s: HostState, cmd: CmdAction, env: Env)
    requires DefaultWeatherKeyword in m
    requires cmd.charId in CommandWhiteList
    requires (cmd.keyword == AmbienceOn && !AmbienceIsEnabled(s)) || (cmd.keyword == AmbienceOff && AmbienceIsEnabled(s))
    requires Consistent(s) && FreshReply(s, env.ambiencePost)
    ensures var r := OnCommandSpec(m, s, cmd, env);
      && AmbienceIsEnabled(r) == (cmd.keyword == AmbienceOn)
      && Live(r, AmbienceTick) == (if cmd.keyword == AmbienceOn && env.ambiencePost.Some? then {env.ambiencePost.value} else {})
      && Live(r, WeatherTick) == Live(s, WeatherTick)
      && WeatherIsEnabled(r) == WeatherIsEnabled(s)
  {
    if cmd.keyword == AmbienceOn {
      ControllerAmbience.StartEffect(m, s, env);
    } else {
      ControllerAmbience.StopEffect(m, s);
    }
  }

  /** An override to a known keyword applies and broadcasts it whether or not the weather
      is enabled, and announces it. */
  lemma OverrideApplies(m: WeatherModel, s: HostState, cmd: CmdAction, env: Env)
    requires DefaultWeatherKeyword in m
    requires cmd.charId in CommandWhiteList && cmd.keyword == WeatherOverride && cmd.data in m
    ensures var r := OnCommandSpec(m, s, cmd, env);
      && StoredKeyword(m, r) == cmd.data
      && r.outbox == s.outbox + ControllerWeather.Broadcast(ListenerRoomScripts, cmd.data)
      && r.describes[|r.describes| - 1] == OverrideText(cmd.data)
      && WeatherIsEnabled(r) == WeatherIsEnabled(s)
  {
    ControllerWeather.SetBroadcasts(m, s, cmd.data, env);
  }

  /** A self-addressed `weather:tick` applies its keyword even while the weather is
      disabled (it is not re-checked), and one without data is ignored. */
  lemma SelfWeatherTick(m: WeatherModel, s: HostState, data: Option<string>, env: Env)
    requires DefaultWeatherKeyword in m
    ensures var r := OnMessageSpec(m, s, SelfAddress, WeatherTick, data, env);
      && (data.None? ==> r == s)
      && (data.Some? ==> && StoredKeyword(m, r) == Resolve(m, StoredKeyword(m, s), data.value)
                          && r.outbox == s.outbox + ControllerWeather.Broadcast(ListenerRoomScripts, StoredKeyword(m, r))
                          && WeatherIsEnabled(r) == WeatherIsEnabled(s))
  {
    if data.Some? {
      ControllerWeather.SetBroadcasts(m, s, data.value, env);
    }
  }

  /** A request from another script is honoured only for `weather:override` with a known
      keyword; anything else changes nothing. */
  lemma ExternalOverride(m: WeatherModel, s: HostState, addr: string, topic: string, data: Option<string>, env: Env)
    requires DefaultWeatherKeyword in m
    requires addr != SelfAddress
    ensures var r := OnMessageSpec(m, s, addr, topic, data, env);
      && (topic != WeatherOverride || data.None? || data.value !in m ==> r == s)
      && (topic == WeatherOverride && data.Some? && data.value in m ==>
            && StoredKeyword(m, r) == data.value
            && r.outbox == s.outbox + ControllerWeather.Broadcast(ListenerRoomScripts, data.value)
            && r.describes[|r.describes| - 1] == ExternalOverrideText(data.value))
  {
    if topic == WeatherOverride && data.Some? && data.value in m {
      ControllerWeather.SetBroadcasts(m, s, data.value, env);
    }
  }

  /** With neither flag persisted, activation changes nothing. */
  lemma OnActivateIdle(m: WeatherModel, s: HostState, env: Env)
    requires DefaultWeatherKeyword in m
    requires !WeatherIsEnabled(s) && !AmbienceIsEnabled(s)
    ensures OnActivateSpec(m, s, env) == s
  {
  }

  /** With the flags persisted, activation brings back one live post per enabled engine. */
  lemma OnActivateRestarts(m: WeatherModel, s: HostState, env: Env)
    requires DefaultWeatherKeyword in m
    requires Inv(s) && FreshReplies(s, env)
    ensures var r := OnActivateSpec(m, s, env);
      && Inv(r)
      && WeatherIsEnabled(r) == WeatherIsEnabled(s)
      && AmbienceIsEnabled(r) == AmbienceIsEnabled(s)
      && (WeatherIsEnabled(s) ==> Live(r, WeatherTick) == (if env.weatherPost.Some? then {env.weatherPost.value} else {}))
      && (AmbienceIsEnabled(s) ==> Live(r, AmbienceTick) == (if env.ambiencePost.Some? then {env.ambiencePost.value} else {}))
      && (!WeatherIsEnabled(s) ==> r.outbox == s.outbox && r.profile == s.profile && StoredKeyword(m, r) == StoredKeyword(m, s))
      && (!AmbienceIsEnabled(s) ==> GetString(r, AmbiencePendingPost) == GetString(s, AmbiencePendingPost))
  {
    var afterWeather := if WeatherIsEnabled(s) then ControllerWeather.StartSpec(m, s, env) else s;
    if WeatherIsEnabled(s) {
      WeatherStartInv(m, s, env);
      FreshAfterWeatherPost(m, s, env);
    }
    if AmbienceIsEnabled(afterWeather) {
      AmbienceStartInv(m, afterWeather, env);
      ControllerAmbience.StartEffect(m, afterWeather, env);
    }
  }

  /** After the weather posts under `weatherPost`, a different `ambiencePost` is still fresh. */
  lemma FreshAfterWeatherPost(m: WeatherModel, s: HostState, env: Env)
    requires DefaultWeatherKeyword in m
    requires Consistent(s) && FreshReplies(s, env)
    ensures FreshReply(ControllerWeather.StartSpec(m, s, env), env.ambiencePost)
  {
    var r := ControllerWeather.StartSpec(m, s, env);
    ControllerWeather.StartEffect(m, s, env);
    assert r.timers.Keys <= s.timers.Keys + (if env.weatherPost.Some? then {env.weatherPost.value} else {});
  }

  lemma DescribeInv(s: HostState, text: string)
    requires Inv(s)
    ensures Inv(WithDescribe(s, text))
  {
    ConsistentFrame(s, WithDescribe(s, text));
    assert Live(WithDescribe(s, text), WeatherTick) == Live(s, WeatherTick);
    assert Live(WithDescribe(s, text), AmbienceTick) == Live(s, AmbienceTick);
  }

  lemma WeatherStartInv(m: WeatherModel, s: HostState, env: Env)
    requires DefaultWeatherKeyword in m
    requires Inv(s) && FreshReply(s, env.weatherPost)
    ensures Inv(ControllerWeather.StartSpec(m, s, env))
  {
    ControllerWeather.StartEffect(m, s, env);
  }

  lemma WeatherStopInv(m: WeatherModel, s: HostState)
    requires Inv(s)
    ensures Inv(ControllerWeather.StopSpec(s))
  {
    ControllerWeather.StopEffect(m, s);
  }

  lemma WeatherSetInv(m: WeatherModel, s: HostState, k: string, env: Env)
    requires DefaultWeatherKeyword in m
    requires Inv(s) && FreshReply(s, env.weatherPost)
    ensures Inv(ControllerWeather.SetSpec(m, s, k, env))
  {
    var r := ControllerWeather.SetSpec(m, s, k, env);
    ControllerWeather.SetBroadcasts(m, s, k, env);
    ControllerWeather.WeatherQuietPreserved(m, s, k, env);
    if WeatherIsEnabled(s) {
      ControllerWeather.SetReschedulesWhenEnabled(m, s, k, env);
    } else {
      ControllerWeather.SetDisabledKeepsTimers(m, s, k, env);
      ConsistentFrame(s, r);
      assert Live(r, AmbienceTick) == Live(s, AmbienceTick);
    }
  }

  lemma AmbienceStartInv(m: WeatherModel, s: HostState, env: Env)
    requires DefaultWeatherKeyword in m
    requires Inv(s) && FreshReply(s, env.ambiencePost)
    ensures Inv(ControllerAmbience.StartSpec(m, s, env))
  {
    ControllerAmbience.StartEffect(m, s, env);
  }

  lemma AmbienceStopInv(m: WeatherModel, s: HostState)
    requires Inv(s)
    ensures Inv(ControllerAmbience.StopSpec(s))
  {
    ControllerAmbience.StopEffect(m, s);
  }

  lemma AmbienceTickInv(m: WeatherModel, s: HostState, env: Env)
    requires DefaultWeatherKeyword in m
    requires Inv(s) && FreshReply(s, env.ambiencePost) && AmbienceIsEnabled(s)
    ensures Inv(TickSpec(m, s, env))
  {
    TickEffect(m, s, env);
  }

  /** Every command keeps the invariant. */
  lemma OnCommandInv(m: WeatherModel, s: HostState, cmd: CmdAction, env: Env)
    requires DefaultWeatherKeyword in m
    requires Inv(s) && FreshReplies(s, env)
    ensures Inv(OnCommandSpec(m, s, cmd, env))
  {
    if cmd.charId !in CommandWhiteList {
    } else if cmd.keyword == WeatherOn {
      if !WeatherIsEnabled(s) {
        WeatherStartInv(m, s, env);
        DescribeInv(ControllerWeather.StartSpec(m, s, env), WeatherEnabledText);
      }
    } else if cmd.keyword == WeatherOff {
      if WeatherIsEnabled(s) {
        WeatherStopInv(m, s);
        DescribeInv(ControllerWeather.StopSpec(s), WeatherDisabledText);
      }
    } else if cmd.keyword == AmbienceOn {
      if !AmbienceIsEnabled(s) {
        AmbienceStartInv(m, s, env);
        DescribeInv(ControllerAmbience.StartSpec(m, s, env), AmbienceEnabledText);
      }
    } else if cmd.keyword == AmbienceOff {
      if AmbienceIsEnabled(s) {
        AmbienceStopInv(m, s);
        DescribeInv(ControllerAmbience.StopSpec(s), AmbienceDisabledText);
      }
    } else if cmd.keyword == WeatherOverride {
      if cmd.data in m {
        WeatherSetInv(m, s, cmd.data, env);
        DescribeInv(ControllerWeather.SetSpec(m, s, cmd.data, env), OverrideText(cmd.data));
      }
    }
  }

  /** Every message keeps the invariant, provided an `ambience:tick` from itself only arrives
      while the ambience is enabled (see StaleAmbienceTick for what happens otherwise). */
  lemma OnMessageInv(m: WeatherModel, s: HostState, addr: string, topic: string, data: Option<string>, env: Env)
    requires DefaultWeatherKeyword in m
    requires Inv(s) && FreshReplies(s, env)
    requires addr == SelfAddress && topic == AmbienceTick ==> AmbienceIsEnabled(s)
    ensures Inv(OnMessageSpec(m, s, addr, topic, data, env))
  {
    if addr == SelfAddress {
      if topic == WeatherTick {
        if data.Some? {
          WeatherSetInv(m, s, data.value, env);
        }
      } else if topic == AmbienceTick {
        AmbienceTickInv(m, s, env);
      }
    } else if topic == WeatherOverride && data.Some? && data.value in m {
      WeatherSetInv(m, s, data.value, env);
      DescribeInv(ControllerWeather.SetSpec(m, s, data.value, env), ExternalOverrideText(data.value));
    }
  }

  /** Delivering any live self-post keeps the invariant: a live ambience post implies that
      the ambience is enabled, so the tick it carries is never stale. */
  lemma DeliverInv(m: WeatherModel, s: HostState, id: string, env: Env)
    requires DefaultWeatherKeyword in m
    requires Inv(s) && FreshReplies(s, env) && id in s.timers
    ensures Inv(DeliverSpec(m, s, id, env))
  {
    var s' := WithoutTimer(s, id);
    assert Live(s', WeatherTick) <= Live(s, WeatherTick);
    assert Live(s', AmbienceTick) <= Live(s, AmbienceTick);
    assert Inv(s');
    if s.timers[id].topic == AmbienceTick {
      assert id in Live(s, AmbienceTick);
    }
    OnMessageInv(m, s', SelfAddress, s.timers[id].topic, s.timers[id].data, env);
  }

  /** The controller does not re-check the flag on `ambience:tick`: a tick arriving after
      `ambience off` reschedules, leaving a live ambience post while the ambience is off. */
  lemma StaleAmbienceTick(m: WeatherModel, s: HostState, data: Option<string>, env: Env)
    requires DefaultWeatherKeyword in m
    requires Consistent(s) && FreshReply(s, env.ambiencePost)
    requires !AmbienceIsEnabled(s) && env.ambiencePost.Some?
    ensures var r := OnMessageSpec(m, s, SelfAddress, AmbienceTick, data, env);
      !AmbienceIsEnabled(r) && Live(r, AmbienceTick) == {env.ambiencePost.value}
  {
    TickEffect(m, s, env);
  }
}
