/** The weather logic that every engine copy shares: getStoredKeyword, currentState and
    setWeather are written out identically in scripts/controller/weather.ts,
    scripts/listener/weather.ts, scripts/controller/index.ts and scripts/listener/index.ts
    (getStoredKeyword and currentState also in scripts/listener/ambience.ts). */
module WeatherCore {
  import opened Wrappers
  import opened Config
  import opened Model
  import opened Random
  import opened Host
  import opened StoreUtils

  /** `isEnabled` of both weather engines. */
  function WeatherIsEnabled(s: HostState): bool {
    StoreGetBool(s, WeatherEnabled)
  }

  /** `getStoredKeyword`: the stored keyword when it names a state of the model,
      the default keyword otherwise. */
  function StoredKeyword(m: WeatherModel, s: HostState): (k: string)
    ensures GetString(s, CurrentWeatherKeyword).Some? && GetString(s, CurrentWeatherKeyword).value in m
            ==> k == GetString(s, CurrentWeatherKeyword).value
    ensures GetString(s, CurrentWeatherKeyword).None? || GetString(s, CurrentWeatherKeyword).value !in m
            ==> k == DefaultWeatherKeyword
    ensures DefaultWeatherKeyword in m ==> k in m
  {
    match GetString(s, CurrentWeatherKeyword)
    case Some(w) => if w in m then w else DefaultWeatherKeyword
    case None => DefaultWeatherKeyword
  }

  /** `currentState`. */
  function CurrentState(m: WeatherModel, s: HostState): WeatherState
    requires DefaultWeatherKeyword in m
  {
    m[StoredKeyword(m, s)]
  }

  /** What setWeather says on the way from `cur` to `target`: one of the edge's
      narrations when `cur` has an edge to `target` with narrations, nothing otherwise. */
  function Narration(m: WeatherModel, cur: string, target: string, u: Unit): (n: seq<string>)
    requires cur in m
    ensures |n| <= 1
    ensures n != [] <==> Find(m[cur].transitions, target).Some?
                         && Find(m[cur].transitions, target).value.describes != []
    ensures n != [] ==> n[0] in Find(m[cur].transitions, target).value.describes
  {
    match Find(m[cur].transitions, target)
    case Some(t) => if |t.describes| > 0 then [RandomDescribe(t.describes, u)] else []
    case None => []
  }

  /** The state setWeather moves to: `target` if the model knows it, otherwise the current one. */
  function Resolve(m: WeatherModel, cur: string, target: string): string {
    if target in m then target else cur
  }

  /** `setWeather(target)`. */
  function SetWeatherSpec(m: WeatherModel, s: HostState, target: string, u: Unit): (r: HostState)
    requires DefaultWeatherKeyword in m
    ensures GetString(r, CurrentWeatherKeyword) == Some(Resolve(m, StoredKeyword(m, s), target))
    ensures StoredKeyword(m, r) == Resolve(m, StoredKeyword(m, s), target)
    ensures r.profile == Some(Resolve(m, StoredKeyword(m, s), target))
    ensures r.describes == s.describes + Narration(m, StoredKeyword(m, s), target, u)
    ensures r.timers == s.timers && r.outbox == s.outbox
    ensures forall k :: k != CurrentWeatherKeyword ==> (k in r.store <==> k in s.store)
    ensures forall k :: k != CurrentWeatherKeyword && k in s.store ==> r.store[k] == s.store[k]
  {
    var cur := StoredKeyword(m, s);
    var edge := Find(m[cur].transitions, target);
    var narrated :=
      if edge.Some? && |edge.value.describes| > 0
      then WithDescribe(s, RandomDescribe(edge.value.describes, u))
      else s;
    var valid := if target in m then target else cur;
    WithString(WithProfile(narrated, valid), CurrentWeatherKeyword, valid)
  }

  method SetWeather(h: Room, m: WeatherModel, target: string, u: Unit)
    requires DefaultWeatherKeyword in m
    modifies h
    ensures h.State() == SetWeatherSpec(m, old(h.State()), target, u)
  {
    var curWeatherKeyword := StoredKeyword(m, h.State());
    var curWeatherState := m[curWeatherKeyword];
    var edge := Find(curWeatherState.transitions, target);
    if edge.Some? {
      var describes := edge.value.describes;
      if |describes| > 0 {
        h.Describe(RandomDescribe(describes, u));
      }
    }
    var validWeatherKeyword := if target in m then target else curWeatherKeyword;
    h.UseProfile(validWeatherKeyword);
    h.SetString(CurrentWeatherKeyword, validWeatherKeyword);
  }

  /** `i64(delay / timeScale)`: the float quotient truncated toward zero. */
  function ScaleDelay(delay: int): (r: int)
    ensures delay >= 0 ==> 0 <= r && r * TimeScale <= delay < (r + 1) * TimeScale
    ensures delay < 0 ==> r <= 0 && (-r) * TimeScale <= -delay < (-r + 1) * TimeScale
  {
    if delay >= 0 then delay / TimeScale else -((-delay) / TimeScale)
  }

  /** A delay drawn from a non-negative range `[min, max)` and scaled lies between the
      scaled bounds. */
  lemma ScaledDelayBetween(d: Delay, u: Unit)
    ensures 0 <= d.min < d.max ==> d.min / TimeScale <= ScaleDelay(RandomDelay(d, u)) <= d.max / TimeScale
  {
    if 0 <= d.min < d.max {
      var x := RandomDelay(d, u);
      var r := ScaleDelay(x);
      var lo := d.min / TimeScale;
      var hi := d.max / TimeScale;
      assert lo * TimeScale <= d.min <= x < (r + 1) * TimeScale;
      assert r * TimeScale <= x < d.max < (hi + 1) * TimeScale;
    }
  }
}
