/** How the two roles fit together: the controller's broadcast keeps every enabled
    listener on the controller's weather, and a listener's override request comes back
    to it as the controller's new weather. */
module Replication {
  import opened Wrappers
  import opened Config
  import opened Model
  import opened Host
  import opened WeatherCore
  import ControllerWeather
  import Controller
  import Listener

  /** Each message of the broadcast a controller `set` sends, once it reaches an enabled
      listener on the same model, leaves that listener on the controller's new keyword. */
  lemma ListenerMirrorsController(m: WeatherModel, c: HostState, k: string, envC: Env, l: HostState, envL: Env, i: nat)
    requires DefaultWeatherKeyword in m
    requires i < |ListenerRoomScripts| && WeatherIsEnabled(l)
    ensures var c' := ControllerWeather.SetSpec(m, c, k, envC);
      var msg := c'.outbox[|c.outbox| + i];
      && msg.addr == ListenerRoomScripts[i]
      && StoredKeyword(m, Listener.OnMessageSpec(m, l, msg.topic, msg.data, envL)) == StoredKeyword(m, c')
  {
    ControllerWeather.SetBroadcasts(m, c, k, envC);
  }

  /** A valid override typed at an enabled listener reaches the controller as a request it
      honours: the controller moves to the keyword and broadcasts it, while the listener
      itself does not move until that broadcast arrives. */
  lemma OverrideRoundTrip(m: WeatherModel, l: HostState, cmd: CmdAction, envL: Env, c: HostState, envC: Env)
    requires DefaultWeatherKeyword in m
    requires cmd.charId in CommandWhiteList && cmd.keyword == WeatherOverride
    requires WeatherIsEnabled(l) && cmd.data in m
    ensures var l' := Listener.OnCommandSpec(m, l, cmd, envL);
      var request := l'.outbox[|l.outbox|];
      var c' := Controller.OnMessageSpec(m, c, ListenerRoomScripts[0], request.topic, request.data, envC);
      && request.addr == ControllerRoomScript
      && StoredKeyword(m, l') == StoredKeyword(m, l)
      && StoredKeyword(m, c') == cmd.data
      && c'.outbox == c.outbox + ControllerWeather.Broadcast(ListenerRoomScripts, cmd.data)
  {
    Listener.OverrideForwarded(m, l, cmd, envL);
    var request := Message(ControllerRoomScript, WeatherOverride, Some(cmd.data));
    Controller.ExternalOverride(m, c, ListenerRoomScripts[0], request.topic, request.data, envC);
  }

  /** A script's first activation starts from a state that satisfies both roles'
      invariants, so the invariants hold at every reachable state; the weather starts
      at the default keyword. */
  lemma InitialInv(m: WeatherModel)
    requires DefaultWeatherKeyword in m
    ensures Controller.Inv(Initial) && Listener.Inv(Initial)
    ensures StoredKeyword(m, Initial) == DefaultWeatherKeyword
  {
    assert Live(Initial, WeatherTick) == {};
    assert Live(Initial, AmbienceTick) == {};
  }
}
