/** Constants of the deployment (scripts/_/config.ts) and the keyword, topic and
    store-key strings (scripts/_/const.ts). */
module Config {
  /** The state every engine falls back to when the stored keyword is missing or unknown. */
  const DefaultWeatherKeyword: string := "sunny"
  /** Simulated time runs this many times faster than wall time. */
  const TimeScale: nat := 60

  const ControllerRoomScript: string := "room.cptsaou9gbricr4i1t7g#cvtjn1u9gbrjdbacjceg"
  const ListenerRoomScripts: seq<string> := ["room.cppn8ie9gbricr4essug#cvtjn369gbrjdbacjcj0"]
  const CommandWhiteList: seq<string> := ["ca5uqb69gbrlr8l7epv0", "ch76s0e9gbrh4ukjv5a0"]

  /** The address a script uses to post to itself. */
  const SelfAddress: string := "#"

  // WeatherKeyword
  const Sunny: string := "sunny"
  const Foggy: string := "foggy"
  const Rainy: string := "rainy"
  const Stormy: string := "stormy"
  const Damp: string := "damp"

  // TopicKeyword
  const WeatherTick: string := "weather:tick"
  const WeatherOn: string := "weather:on"
  const WeatherOff: string := "weather:off"
  const WeatherOverride: string := "weather:override"
  const AmbienceTick: string := "ambience:tick"
  const AmbienceOn: string := "ambience:on"
  const AmbienceOff: string := "ambience:off"

  // StoreKey
  const CurrentWeatherKeyword: string := "currentWeatherKeyword"
  const WeatherEnabled: string := "weatherEnabled"
  const WeatherPendingPost: string := "weatherPendingPost"
  const AmbienceEnabled: string := "ambienceEnabled"
  const AmbiencePendingPost: string := "ambiencePendingPost"
}
