/** The listener script's event handlers (namespace Listener of
    scripts/listener/listener.ts and scripts/listener/index.ts): commands from
    whitelisted characters, the controller's broadcasts and its own ambience ticks. */
module Listener {
  import opened Wrappers
  import opened Config
  import opened Model
  import opened Host
  import opened StoreUtils
  import opened Channel
  import opened WeatherCore
  import opened AmbienceCore
  import ListenerWeather
  import ListenerAmbience
  import ControllerAmbience

  const WeatherActivatedText: string := "*beep boop* WEATHER ACTIVATED"
  const WeatherDeactivatedText: string := "*beep boop* WEATHER DEACTIVATED"
  const AmbienceActivatedText: string := "*beep boop* AMBIENCE ACTIVATED"
  const AmbienceDeactivatedText: string := "*beep boop* AMBIENCE DEACTIVATED"

  function OverrideRequestedText(k: string): string { "*beep boop* WEATHER OVERRIDE REQUESTED: " + k }

  /** `onActivate`, restart part: each engine restarts only if its persisted flag is set. */
  function OnActivateSpec(m: WeatherModel, s: HostState, env: Env): HostState
    requires DefaultWeatherKeyword in m
  {
    var afterWeather := if WeatherIsEnabled(s) then ListenerWeather.StartSpec(s) else s;
    if AmbienceIsEnabled(afterWeather) then ListenerAmbience.StartSpec(m, afterWeather, env) else afterWeather
  }

  /** `onCommand`. The override is not applied here: while the weather is enabled and the
      keyword names a state, it is forwarded to the controller. */
  function OnCommandSpec(m: WeatherModel, s: HostState, cmd: CmdAction, env: Env): HostState
    requires DefaultWeatherKeyword in m
  {
    if cmd.charId !in CommandWhiteList then s
    else if cmd.keyword == WeatherOn then
      if WeatherIsEnabled(s) then s
      else WithDescribe(ListenerWeather.StartSpec(s), WeatherActivatedText)
    else if cmd.keyword == WeatherOff then
      if !WeatherIsEnabled(s) then s
      else WithDescribe(ListenerWeather.StopSpec(s), WeatherDeactivatedText)
    else if cmd.keyword == AmbienceOn then
      if AmbienceIsEnabled(s) then s
      else WithDescribe(ListenerAmbience.StartSpec(m, s, env), AmbienceActivatedText)
    else if cmd.keyword == AmbienceOff then
      if !AmbienceIsEnabled(s) then s
      else WithDescribe(ListenerAmbience.StopSpec(s), AmbienceDeactivatedText)
    else if cmd.keyword == WeatherOverride then
      if !WeatherIsEnabled(s) || cmd.data !in m then s
      else WithDescribe(WithMessage(s, ControllerRoomScript, cmd.keyword, Some(cmd.data)), OverrideRequestedText(cmd.data))
    else s
  }

  /** `onMessage`. The sender's address is not examined; both ticks are gated on the
      listener's own flags. */
  function OnMessageSpec(m: WeatherModel, s: HostState, topic: string, data: Option<string>, env: Env): HostState
    requires DefaultWeatherKeyword in m
  {
    if topic == WeatherTick then
      if data.None? || !WeatherIsEnabled(s) then s
      else ListenerWeather.SetSpec(m, s, data.value, env.narrate)
    else if topic == AmbienceTick then
      if !AmbienceIsEnabled(s) then s else TickSpec(m, s, env)
    else s
  }

  /** The host delivering the live self-post `id`. */
  function DeliverSpec(m: WeatherModel, s: HostState, id: string, env: Env): HostState
    requires DefaultWeatherKeyword in m
    requires id in s.timers
  {
    var t := s.timers[id];
    OnMessageSpec(m, WithoutTimer(s, id), t.topic, t.data, env)
  }

  method OnActivate(h: Room, m: WeatherModel, env: Env)
    requires DefaultWeatherKeyword in m
    modifies h
    ensures h.State() == OnActivateSpec(m, old(h.State()), env)
  {
    var weatherEnabled := WeatherIsEnabled(h.State());
    if weatherEnabled {
      ListenerWeather.Start(h);
    }
    var ambienceEnabled := AmbienceIsEnabled(h.State());
    if ambienceEnabled {
      ListenerAmbience.Start(h, m, env);
    }
  }

  method OnCommand(h: Room, m: WeatherModel, cmd: CmdAction, env: Env)
    requires DefaultWeatherKeyword in m
    modifies h
    ensures h.State() == OnCommandSpec(m, old(h.State()), cmd, env)
  {
    if cmd.charId !in CommandWhiteList {
      return;
    }
    if cmd.keyword == WeatherOn {
      if WeatherIsEnabled(h.State()) {
        return;
      }
      ListenerWeather.Start(h);
      h.Describe(WeatherActivatedText);
    } else if cmd.keyword == WeatherOff {
      if !WeatherIsEnabled(h.State()) {
        return;
      }
      ListenerWeather.Stop(h);
      h.Describe(WeatherDeactivatedText);
    } else if cmd.keyword == AmbienceOn {
      if AmbienceIsEnabled(h.State()) {
        return;
      }
      ListenerAmbience.Start(h, m, env);
      h.Describe(AmbienceActivatedText);
    } else if cmd.keyword == AmbienceOff {
      if !AmbienceIsEnabled(h.State()) {
        return;
      }
      ListenerAmbience.Stop(h);
      h.Describe(AmbienceDeactivatedText);
    } else if cmd.keyword == WeatherOverride {
      if !WeatherIsEnabled(h.State()) {
        return;
      }
      if cmd.data !in m {
        return;
      }
      h.Post(ControllerRoomScript, cmd.keyword, Some(cmd.data));
      h.Describe(OverrideRequestedText(cmd.data));
    }
  }

  method OnMessage(h: Room, m: WeatherModel, topic: string, data: Option<string>, env: Env)
    requires DefaultWeatherKeyword in m
    modifies h
    ensures h.State() == OnMessageSpec(m, old(h.State()), topic, data, env)
  {
    if topic == WeatherTick {
      if data.None? {
        return;
      }
      if !WeatherIsEnabled(h.State()) {
        return;
      }
      ListenerWeather.Set(h, m, data.value, env.narrate);
    } else if topic == AmbienceTick {
      if !AmbienceIsEnabled(h.State()) {
        return;
      }
      Tick(h, m, env);
    }
  }

  /** The listener's invariant: one live ambience post at most, the recorded one, none
      while the ambience is off, and never a weather post. */
  predicate Inv(s: HostState) {
    Consistent(s) && Live(s, WeatherTick) == {} && AmbienceQuiet(s)
  }

  /** Posting before raising the flag, and cancelling before lowering it, ends in the same
      state as the controller's opposite order. */
  lemma SameAsControllerAmbience(m: WeatherModel, s: HostState, env: Env)
    requires DefaultWeatherKeyword in m
    ensures ListenerAmbience.StartSpec(m, s, env) == ControllerAmbience.StartSpec(m, s, env)
    ensures ListenerAmbience.StopSpec(s) == ControllerAmbience.StopSpec(s)
  {
    var enabled := StoreSetBoolSpec(s, AmbienceEnabled, true);
    assert CurrentState(m, enabled) == CurrentState(m, s);
    var l := ListenerAmbience.StartSpec(m, s, env);
    var c := ControllerAmbience.StartSpec(m, s, env);
    assert l.store == c.store;
    var ls := ListenerAmbience.StopSpec(s);
    var cs := ControllerAmbience.StopSpec(s);
    assert ls.store == cs.store;
  }

  /** A command from outside the whitelist, an already-on or already-off toggle, and an
      override while the weather is off or to an unknown keyword change nothing. */
  lemma RejectedCommandsChangeNothing(m: WeatherModel, s: HostState, cmd: CmdAction, env: Env)
    requires DefaultWeatherKeyword in m
    requires || cmd.charId !in CommandWhiteList
             || (cmd.keyword == WeatherOn && WeatherIsEnabled(s))
             || (cmd.keyword == WeatherOff && !WeatherIsEnabled(s))
             || (cmd.keyword == AmbienceOn && AmbienceIsEnabled(s))
             || (cmd.keyword == AmbienceOff && !AmbienceIsEnabled(s))
             || (cmd.keyword == WeatherOverride && (!WeatherIsEnabled(s) || cmd.data !in m))
    ensures OnCommandSpec(m, s, cmd, env) == s
  {
  }

  /** A valid override is only requested: one `weather:override` post to the controller,
      the local keyword and timers unchanged. */
  lemma OverrideForwarded(m: WeatherModel, s: HostState, cmd: CmdAction, env: Env)
    requires DefaultWeatherKeyword in m
    requires cmd.charId in CommandWhiteList && cmd.keyword == WeatherOverride
    requires WeatherIsEnabled(s) && cmd.data in m
    ensures var r := OnCommandSpec(m, s, cmd, env);
      && r.outbox == s.outbox + [Message(ControllerRoomScript, WeatherOverride, Some(cmd.data))]
      && StoredKeyword(m, r) == StoredKeyword(m, s)
      && r.timers == s.timers && r.store == s.store
      && r.describes == s.describes + [OverrideRequestedText(cmd.data)]
  {
  }

  /** `weather:tick` is applied only with data and while the weather is on, and then it
      only applies the keyword; `ambience:tick` runs only while the ambience is on. */
  lemma TickGates(m: WeatherModel, s: HostState, topic: string, data: Option<string>, env: Env)
    requires DefaultWeatherKeyword in m
    ensures var r := OnMessageSpec(m, s, topic, data, env);
      && (topic == WeatherTick && (data.None? || !WeatherIsEnabled(s)) ==> r == s)
      && (topic == WeatherTick && data.Some? && WeatherIsEnabled(s) ==>
            && StoredKeyword(m, r) == Resolve(m, StoredKeyword(m, s), data.value)
            && r.outbox == s.outbox && r.timers == s.timers)
      && (topic == AmbienceTick && !AmbienceIsEnabled(s) ==> r == s)
      && (topic == AmbienceTick && AmbienceIsEnabled(s) ==> r == TickSpec(m, s, env))
      && (topic != WeatherTick && topic != AmbienceTick ==> r == s)
  {
    if topic == WeatherTick && data.Some? && WeatherIsEnabled(s) {
      ListenerWeather.SetOnlyApplies(m, s, data.value, env.narrate);
    }
  }

  /** With neither flag persisted, activation changes nothing. */
  lemma OnActivateIdle(m: WeatherModel, s: HostState, env: Env)
    requires DefaultWeatherKeyword in m
    requires !WeatherIsEnabled(s) && !AmbienceIsEnabled(s)
    ensures OnActivateSpec(m, s, env) == s
  {
  }

  lemma DescribeInv(s: HostState, text: string)
    requires Inv(s)
    ensures Inv(WithDescribe(s, text))
  {
    ConsistentFrame(s, WithDescribe(s, text));
    assert Live(WithDescribe(s, text), WeatherTick) == Live(s, WeatherTick);
    assert Live(WithDescribe(s, text), AmbienceTick) == Live(s, AmbienceTick);
  }

  /** A step that changes no timer and neither token key nor the ambience flag keeps the
      invariant. */
  lemma FrameInv(s: HostState, r: HostState)
    requires Inv(s)
    requires r.timers == s.timers
    requires GetString(r, WeatherPendingPost) == GetString(s, WeatherPendingPost)
    requires GetString(r, AmbiencePendingPost) == GetString(s, AmbiencePendingPost)
    requires AmbienceIsEnabled(r) == AmbienceIsEnabled(s)
    ensures Inv(r)
  {
    ConsistentFrame(s, r);
    assert Live(r, WeatherTick) == Live(s, WeatherTick);
    assert Live(r, AmbienceTick) == Live(s, AmbienceTick);
  }

  lemma AmbienceStartInv(m: WeatherModel, s: HostState, env: Env)
    requires DefaultWeatherKeyword in m
    requires Inv(s) && FreshReply(s, env.ambiencePost)
    ensures Inv(ListenerAmbience.StartSpec(m, s, env))
  {
    SameAsControllerAmbience(m, s, env);
    ControllerAmbience.StartEffect(m, s, env);
  }

  lemma AmbienceStopInv(m: WeatherModel, s: HostState, env: Env)
    requires DefaultWeatherKeyword in m
    requires Inv(s)
    ensures Inv(ListenerAmbience.StopSpec(s))
  {
    SameAsControllerAmbience(m, s, env);
    ControllerAmbience.StopEffect(m, s);
  }

  /** Every command keeps the invariant; in particular the listener never schedules a
      weather post. */
  lemma OnCommandInv(m: WeatherModel, s: HostState, cmd: CmdAction, env: Env)
    requires DefaultWeatherKeyword in m
    requires Inv(s) && FreshReply(s, env.ambiencePost)
    ensures Inv(OnCommandSpec(m, s, cmd, env))
  {
    if cmd.charId !in CommandWhiteList {
    } else if cmd.keyword == WeatherOn || cmd.keyword == WeatherOff {
      var r := if cmd.keyword == WeatherOn then ListenerWeather.StartSpec(s) else ListenerWeather.StopSpec(s);
      ListenerWeather.StartStopOnlyFlag(m, s, cmd.keyword == WeatherOn);
      FrameInv(s, r);
      DescribeInv(r, if cmd.keyword == WeatherOn then WeatherActivatedText else WeatherDeactivatedText);
    } else if cmd.keyword == AmbienceOn {
      if !AmbienceIsEnabled(s) {
        AmbienceStartInv(m, s, env);
        DescribeInv(ListenerAmbience.StartSpec(m, s, env), AmbienceActivatedText);
      }
    } else if cmd.keyword == AmbienceOff {
      if AmbienceIsEnabled(s) {
        AmbienceStopInv(m, s, env);
        DescribeInv(ListenerAmbience.StopSpec(s), AmbienceDeactivatedText);
      }
    } else if cmd.keyword == WeatherOverride {
      if WeatherIsEnabled(s) && cmd.data in m {
        var posted := WithMessage(s, ControllerRoomScript, cmd.keyword, Some(cmd.data));
        FrameInv(s, posted);
        DescribeInv(posted, OverrideRequestedText(cmd.data));
      }
    }
  }

  /** Every message keeps the invariant, whatever its sender: the ambience tick is gated
      on the flag, so even a stale one cannot revive a disabled ambience. */
  lemma OnMessageInv(m: WeatherModel, s: HostState, topic: string, data: Option<string>, env: Env)
    requires DefaultWeatherKeyword in m
    requires Inv(s) && FreshReply(s, env.ambiencePost)
    ensures Inv(OnMessageSpec(m, s, topic, data, env))
  {
    if topic == WeatherTick {
      if data.Some? && WeatherIsEnabled(s) {
        ListenerWeather.SetOnlyApplies(m, s, data.value, env.narrate);
        FrameInv(s, ListenerWeather.SetSpec(m, s, data.value, env.narrate));
      }
    } else if topic == AmbienceTick {
      if AmbienceIsEnabled(s) {
        TickEffect(m, s, env);
      }
    }
  }

  /** Delivering any live self-post keeps the invariant. */
  lemma DeliverInv(m: WeatherModel, s: HostState, id: string, env: Env)
    requires DefaultWeatherKeyword in m
    requires Inv(s) && FreshReply(s, env.ambiencePost) && id in s.timers
    ensures Inv(DeliverSpec(m, s, id, env))
  {
    var s' := WithoutTimer(s, id);
    assert Live(s', WeatherTick) <= Live(s, WeatherTick);
    assert Live(s', AmbienceTick) <= Live(s, AmbienceTick);
    assert Inv(s');
    OnMessageInv(m, s', s.timers[id].topic, s.timers[id].data, env);
  }

  /** Activation keeps the invariant and brings back the ambience post if its flag is set. */
  lemma OnActivateInv(m: WeatherModel, s: HostState, env: Env)
    requires DefaultWeatherKeyword in m
    requires Inv(s) && FreshReply(s, env.ambiencePost)
    ensures var r := OnActivateSpec(m, s, env);
      && Inv(r)
      && WeatherIsEnabled(r) == WeatherIsEnabled(s)
      && AmbienceIsEnabled(r) == AmbienceIsEnabled(s)
      && (AmbienceIsEnabled(s) ==> Live(r, AmbienceTick) == (if env.ambiencePost.Some? then {env.ambiencePost.value} else {}))
  {
    var afterWeather := if WeatherIsEnabled(s) then ListenerWeather.StartSpec(s) else s;
    ListenerWeather.StartStopOnlyFlag(m, s, true);
    FrameInv(s, afterWeather);
    if AmbienceIsEnabled(afterWeather) {
      AmbienceStartInv(m, afterWeather, env);
      SameAsControllerAmbience(m, afterWeather, env);
      ControllerAmbience.StartEffect(m, afterWeather, env);
    }
  }
}
