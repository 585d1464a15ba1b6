# Weather controller and weather listener

A model of the mucklet weather scripts. A room script called the *controller* runs a
weighted-random finite state machine over five weather profiles (`sunny`, `foggy`, `rainy`,
`stormy`, `damp`). On each change it narrates the transition, switches the room profile,
records the keyword in the script Store and tells every *listener* room script. It then
schedules a delayed self-post (`weather:tick`) that carries the next keyword, drawn when the
post is scheduled. Listeners only follow: they apply the keywords they receive while their
weather is enabled, and they pass override requests on to the controller. Both roles run an
*ambience* engine. It periodically describes a line from the current weather's ambience pool
through a second self-post (`ambience:tick`). Each engine keeps at most one pending self-post:
it cancels the recorded post id before posting and records the new id, or deletes the record
when the host refuses the post. Both roles obey `weather on/off`, `ambience on/off` and
`override weather <Keyword>` from whitelisted characters. They restart, on activation, the
engines whose enabled flag is persisted.

## How the model is built

- `Host.HostState` is one value holding what the host keeps. The Store is a map from key to
  a string or a one-byte flag buffer. It also holds the pending self-posts by id, the posts
  to other scripts, the `Room.describe` lines and the selected room profile.
- `Host.Room` is a class with the same fields. Its methods are the host calls the scripts
  make (`Store.setString/setBuffer/deleteKey`, `Room.describe/useProfile`,
  `Script.post/cancelPost`).
- Every script function is a method on a `Room` that makes the same host calls in the same
  order. Each is proved equal to a pure function on `HostState`, named `…Spec`. The
  properties are lemmas about those functions.
- Each call of `Math.random()` is an explicit draw `u` with `Math.random() == u / 2^53`.
- The post id the host returns is a parameter of type `Option<string>`, where `None` is
  null. All of these are collected per event in `Host.Env`.
- The source exists in two forms with the same logic. The split files are
  `controller/{controller,weather,ambience}.ts` and `listener/{listener,weather,ambience}.ts`.
  The combined files are `controller/index.ts` and `listener/index.ts`; the latter is
  imported by `nora-tree-house.ts`.
- One Dafny module per source namespace serves both forms. The table cites whichever copy
  it names; the other copy has the same lines in the same order. Code that is copied across
  roles is defined once:
  - `WeatherCore` covers getStoredKeyword, currentState and setWeather.
  - `AmbienceCore` covers describeAmbience, sendAmbiencePost and tick.
  - `Channel` covers cancel-before-post and the recording of post ids.
- `Replication` relates the two roles. `NoraTreeHouse` is the concrete weather model.

The main invariants:

- `Channel.Consistent`: every live self-post of a channel is the one whose id the channel
  records, so at most one is live, and the two channels never record the same id.
- `ControllerWeather.WeatherQuiet` and `AmbienceCore.AmbienceQuiet`: a disabled engine has
  no live post.
- Freshness of the host's ids (`Channel.FreshReply`) is assumed only by the lemmas that
  need it. No method requires it.

## Model

| member | source | states |
|---|---|---|
| Random.RandomDelay | scripts/utils/random.ts:4-6 | for `min < max` the delay lies in `[min, max)`; for `min == max` it is exactly `min`; reversed bounds give a value between them |
| Random.RandomDescribe | scripts/utils/random.ts:7-9 | on a non-empty array the chosen description is one of its elements |
| Random.ScaledRange | scripts/utils/random.ts:4-9 | `floor(Math.random() * n)` lies in `[0, n)` for positive `n`, is 0 for `n == 0` and lies in `[n, 0]` for negative `n` |
| Random.DrawComparison | scripts/utils/random.ts:18-23 | comparing the floor of the scaled draw with an integer cumulative weight gives the same answer as comparing the exact product, so the integer draw is exact |
| Random.PickFrom | scripts/utils/random.ts:20-25 | the scan stops at the first index whose running weight sum exceeds the draw; every earlier sum is at most the draw; no index means no sum exceeds it |
| Random.RandomTransitionKey | scripts/utils/random.ts:10-26 | the two loops return the target of the first edge whose running sum exceeds `floor(u * total)`, else `defaultWeatherKeyword`; this matches `TransitionKey` provided the u32 total does not overflow |
| Random.PickBucket | scripts/utils/random.ts:18-24 | draw `r` selects edge `i` if and only if `prefix(i) <= r < prefix(i) + weight_i` |
| Random.PickInRange | scripts/utils/random.ts:17-24 | every draw in `[0, totalWeight)` selects some edge |
| Random.PickHasPositiveWeight | scripts/utils/random.ts:21-23 | a selected edge has positive weight |
| Random.PickCount | scripts/utils/random.ts:18-24 | exactly `weight_i` of the `totalWeight` draws select edge `i` |
| Random.TransitionKeyIsTarget | scripts/utils/random.ts:13-24 | with a positive total the result is the target of an edge of positive weight |
| Random.ZeroWeightNeverChosen | scripts/utils/random.ts:21-23 | with distinct keys and a positive total, the key of a weight-0 entry is never returned |
| Random.NoWeightYieldsDefault | scripts/utils/random.ts:14-25 | an empty map, or one whose weights are all 0, yields `defaultWeatherKeyword` |
| Random.TransitionKeyOutcome | scripts/utils/random.ts:13-25 | a positive total yields the target of a positive-weight edge, a zero total yields `defaultWeatherKeyword` |
| Random.SingleEdgeAlwaysChosen | scripts/utils/random.ts:15-23 | a single entry of positive weight is always returned |
| Model.Find | scripts/controller/weather.ts:74-75 | `transitions.has(k)` holds exactly when some edge targets `k`, and `get(k)` is the transition of such an edge |
| StoreUtils.StoreSetBoolSpec | scripts/utils/store.ts:1-9 | after `storeSetBool(k, v)`, `storeGetBool(k) == v`; for false the key is absent; no other key, post or line changes |
| StoreUtils.StoreSetBool | scripts/utils/store.ts:4-9 | writes the flag buffer for true and deletes the key for false, as `StoreSetBoolSpec` |
| StoreUtils.StoreSetBoolIdempotent | scripts/utils/store.ts:7-8 | setting a flag twice to the same value equals setting it once |
| StoreUtils.StoreGetAfterSet | scripts/utils/store.ts:1-9 | the flag reads back the last value written to it, whatever other flag was written since |
| Channel.Cancel | scripts/controller/weather.ts:110-113 | cancels the recorded post if there is one; the record itself stays |
| Channel.Replace | scripts/controller/weather.ts:103-108 | cancel the recorded post, post to self, then record the new id or delete the record on null |
| Channel.AtMostOneLive | scripts/controller/weather.ts:103-108 | a channel that owns its live posts has at most one |
| Channel.CancelClears | scripts/controller/ambience.ts:74-77 | after cancelling, the channel has no live post, the invariant holds and the other channel is untouched |
| Channel.ReplaceOwns | scripts/controller/ambience.ts:61-73 | after cancel-before-post the invariant holds and exactly the new post is live on the channel (none on null), with the posted content; the other channel is untouched |
| WeatherCore.StoredKeyword | scripts/controller/weather.ts:61-66 | the stored keyword when it is non-null and a state, `defaultWeatherKeyword` otherwise |
| WeatherCore.Narration | scripts/controller/weather.ts:74-78 | some narration is said exactly when the current state has an edge to the keyword with non-empty describes, and it is one of those describes |
| WeatherCore.SetWeatherSpec | scripts/controller/weather.ts:71-83 | persists and selects the keyword if it is a state, else the current resolved one; narrates as `Narration`; leaves posts, timers and other keys alone |
| WeatherCore.SetWeather | scripts/listener/weather.ts:59-71 | performs setWeather's host calls, ending in `SetWeatherSpec` |
| WeatherCore.ScaleDelay | scripts/controller/weather.ts:100-101 | `i64(delay / timeScale)` truncates toward zero: `r * 60 <= delay < (r + 1) * 60` for non-negative delays, mirrored for negative ones |
| WeatherCore.ScaledDelayBetween | scripts/controller/weather.ts:100-101 | a delay drawn from `[min, max)` with `min >= 0` and scaled lies between `min / timeScale` and `max / timeScale` |
| AmbienceCore.DescribeAmbienceSpec | scripts/controller/ambience.ts:55-60 | adds one line, drawn from the current state's pool, exactly when that pool is non-empty; nothing else changes |
| AmbienceCore.AmbienceTimer | scripts/controller/ambience.ts:61-69 | the ambience self-post is an `ambience:tick` with null data; for a range `0 <= min < max` its delay lies between `min / timeScale` and `max / timeScale` |
| AmbienceCore.DescribeAmbience | scripts/listener/ambience.ts:62-67 | performs describeAmbience's host calls, ending in `DescribeAmbienceSpec` |
| AmbienceCore.SendAmbiencePost | scripts/listener/ambience.ts:68-80 | performs sendAmbiencePost's cancel, post and record, ending in `SendAmbiencePostSpec` |
| AmbienceCore.Tick | scripts/listener/ambience.ts:40-43 | describes, then reschedules |
| AmbienceCore.SendAmbiencePostEffect | scripts/controller/ambience.ts:61-73 | exactly the new post is live on the ambience channel (none on null); the weather keyword, both flags, the weather post and its record are unchanged |
| AmbienceCore.TickEffect | scripts/controller/ambience.ts:43-46 | a tick describes a pool line exactly when the current pool is non-empty, then leaves exactly the new post live (none on a null reply); the weather is untouched |
| AmbienceCore.AmbienceFollowsWeather | scripts/controller/ambience.ts:55-63 | after the weather moves to a state, the next ambience line and delay come from that state's profile without a restart |
| ControllerWeather.Broadcast | scripts/controller/weather.ts:84-92 | one `weather:tick` per listener address, in `listenerRoomScripts` order, each carrying the keyword |
| ControllerWeather.NextWeatherTimer | scripts/controller/weather.ts:93-101 | the self-post is a `weather:tick` with a keyword: the target of a positive-weight edge of the current state when its total is positive, `defaultWeatherKeyword` when it is 0; for a duration `0 <= min < max` its delay lies between `min / timeScale` and `max / timeScale` |
| ControllerWeather.SendUpdatePost | scripts/controller/weather.ts:84-92 | the loop appends exactly `Broadcast(listenerRoomScripts, storedKeyword)` to the posts |
| ControllerWeather.SendDelayedPost | scripts/controller/weather.ts:93-109 | draws the next keyword and delay, then cancels before posting, as `SendDelayedPostSpec` |
| ControllerWeather.Set | scripts/controller/weather.ts:48-52 | setWeather, broadcast, and sendDelayedPost only when enabled |
| ControllerWeather.Start | scripts/controller/weather.ts:42-47 | raise the flag, `setWeather("")`, broadcast, schedule |
| ControllerWeather.Stop | scripts/controller/weather.ts:53-56 | clear the flag and cancel the pending post |
| ControllerWeather.SendDelayedPostEffect | scripts/controller/weather.ts:93-109 | afterwards exactly the new post is live, carrying `NextWeatherTimer`; the ambience channel, keyword, flags and posts are unchanged |
| ControllerWeather.SetBroadcasts | scripts/controller/weather.ts:48-52 | `set` persists the resolved keyword and always broadcasts it to every listener in order, enabled or not; flags unchanged |
| ControllerWeather.SetReschedulesWhenEnabled | scripts/controller/index.ts:166-170 | while enabled, `set` leaves exactly the new weather post live (none on a null reply); its keyword is drawn from the transitions of the state just entered and its delay from that state's duration |
| ControllerWeather.SetDisabledKeepsTimers | scripts/controller/weather.ts:48-52 | while disabled, `set` schedules and cancels nothing and keeps both records |
| ControllerWeather.StartEffect | scripts/controller/weather.ts:42-47 | `start` enables the weather and leaves exactly the new post live; the ambience is untouched |
| ControllerWeather.StartKeepsKeyword | scripts/controller/index.ts:160-165 | since `""` is not a state, `start` keeps and broadcasts the resolved keyword and schedules from the state the weather was already in |
| ControllerWeather.StopEffect | scripts/controller/index.ts:171-174 | `stop` disables the weather and leaves no live weather post; the keyword and the (stale) `weatherPendingPost` record are kept |
| ControllerWeather.StartTwiceOneLive | scripts/controller/weather.ts:103-108 | starting twice in a row still leaves at most one live weather post |
| ControllerWeather.WeatherQuietPreserved | scripts/controller/weather.ts:42-56 | start, stop and set keep "disabled implies no live weather post" |
| ControllerAmbience.Start | scripts/controller/ambience.ts:39-42 | raise the flag, then sendAmbiencePost |
| ControllerAmbience.Stop | scripts/controller/ambience.ts:47-50 | clear the flag, then cancel |
| ControllerAmbience.StartEffect | scripts/controller/ambience.ts:39-42 | enables the ambience and leaves exactly the new ambience post live (none on a null reply), with null data; the weather keyword, flag and post are unchanged |
| ControllerAmbience.StopEffect | scripts/controller/index.ts:237-240 | disables the ambience and leaves no live ambience post; the weather is untouched |
| Controller.OnActivate | scripts/controller/controller.ts:60-63 | restarts the weather, then the ambience, each only if its persisted flag is set |
| Controller.OnCommand | scripts/controller/controller.ts:74-128 | whitelist gate, already-on/off guards, override validation, then the engine call and its announcement |
| Controller.OnMessage | scripts/controller/controller.ts:131-160 | self-posts drive `set` (non-null data) and `tick` with no enabled check; from others only a valid `weather:override` is honoured |
| Controller.RejectedCommandsChangeNothing | scripts/controller/controller.ts:81-124 | a non-whitelisted character, `on` while on, `off` while off, and an unknown override keyword change no state |
| Controller.WeatherOnStarts | scripts/controller/controller.ts:85-93 | `weather on` while off enables the weather, leaves exactly the new weather post live and says the announcement last |
| Controller.WeatherOffStops | scripts/controller/controller.ts:94-102 | `weather off` while on disables the weather with no live post, keeps the keyword and adds only the announcement |
| Controller.AmbienceOnOff | scripts/controller/controller.ts:103-118 | `ambience on` sets the flag and leaves exactly the new ambience post live; `ambience off` clears it and leaves none; the weather is untouched |
| Controller.OverrideApplies | scripts/controller/controller.ts:119-127 | a known override keyword becomes the weather and is broadcast whether or not the weather is enabled, then announced |
| Controller.SelfWeatherTick | scripts/controller/controller.ts:141-145 | a self `weather:tick` applies and broadcasts its keyword even while disabled; null data changes nothing |
| Controller.ExternalOverride | scripts/controller/index.ts:147-156 | from another script only `weather:override` with a known keyword does anything: it applies, broadcasts and announces it |
| Controller.OnActivateIdle | scripts/controller/controller.ts:60-63 | with neither flag persisted, activation changes nothing |
| Controller.OnActivateRestarts | scripts/controller/index.ts:57-60 | activation keeps both flags and the invariant; each enabled engine ends with exactly its new post live; with the weather off there is no broadcast, no profile switch and no keyword change; with the ambience off its record is untouched |
| Controller.OnCommandInv | scripts/controller/controller.ts:74-128 | every command keeps the token invariant and both quiet invariants |
| Controller.OnMessageInv | scripts/controller/controller.ts:131-160 | every message keeps the invariants, provided a self `ambience:tick` arrives only while the ambience is enabled |
| Controller.DeliverInv | scripts/controller/controller.ts:140-149 | delivering any live self-post keeps the invariants: a live ambience post implies the ambience is on |
| Controller.StaleAmbienceTick | scripts/controller/controller.ts:146-148 | a self `ambience:tick` while the ambience is off reschedules anyway, leaving a live ambience post while off |
| ListenerWeather.Start | scripts/listener/weather.ts:36-38 | only raises the flag |
| ListenerWeather.Stop | scripts/listener/weather.ts:42-44 | only clears the flag |
| ListenerWeather.Set | scripts/listener/weather.ts:39-41 | is exactly setWeather |
| ListenerWeather.StartStopOnlyFlag | scripts/listener/weather.ts:36-47 | start and stop make no post and no cancel and change no other key; `isEnabled` then reports the last call |
| ListenerWeather.SetOnlyApplies | scripts/listener/index.ts:151-153 | `set` applies the resolved keyword, with no broadcast, no timer and no flag change |
| ListenerAmbience.Start | scripts/listener/ambience.ts:36-39 | sendAmbiencePost first, then raise the flag |
| ListenerAmbience.Stop | scripts/listener/ambience.ts:44-47 | cancel first, then clear the flag |
| Listener.OnActivate | scripts/listener/listener.ts:57-60 | restarts each engine only if its persisted flag is set |
| Listener.OnCommand | scripts/listener/listener.ts:71-127 | whitelist gate, guards, and an override that is forwarded only while enabled and valid |
| Listener.OnMessage | scripts/listener/listener.ts:130-148 | `weather:tick` is applied only with data and while weather is enabled; `ambience:tick` only while ambience is enabled; the sender is not examined |
| Listener.SameAsControllerAmbience | scripts/listener/index.ts:187-198 | the listener's post-then-flag start and cancel-then-flag stop end in the same state as the controller's opposite order |
| Listener.RejectedCommandsChangeNothing | scripts/listener/listener.ts:78-123 | a non-whitelisted character, the already-on/off cases, and an override while disabled or to an unknown keyword change nothing |
| Listener.OverrideForwarded | scripts/listener/listener.ts:114-126 | a valid override posts `weather:override` with the keyword to the controller; the local keyword, store and timers are unchanged |
| Listener.TickGates | scripts/listener/listener.ts:139-147 | ticks without data or while disabled are ignored; an applied weather tick only moves the keyword; an ambience tick while enabled is exactly the shared `tick`; other topics are ignored |
| Listener.OnActivateIdle | scripts/listener/listener.ts:57-60 | with neither flag persisted, activation changes nothing |
| Listener.OnCommandInv | scripts/listener/listener.ts:71-127 | every command keeps the invariant, including that the listener never has a live weather post |
| Listener.OnMessageInv | scripts/listener/index.ts:127-145 | every message from any sender keeps the invariant, since the ambience tick is gated on the flag |
| Listener.DeliverInv | scripts/listener/listener.ts:139-147 | delivering any live self-post keeps the invariant |
| Listener.OnActivateInv | scripts/listener/index.ts:54-57 | activation keeps the flags and the invariant; with the ambience flag set, exactly the new ambience post is live |
| NoraTreeHouse.Keys | scripts/nora-tree-house.ts:26-171 | the model's states are exactly sunny, foggy, rainy, stormy and damp |
| NoraTreeHouse.Totals | scripts/nora-tree-house.ts:42-170 | the transition tables weigh 200, 300, 200, 200 and 100 |
| NoraTreeHouse.WellFormed | scripts/nora-tree-house.ts:26-171 | the default state exists and no total overflows a u32 |
| NoraTreeHouse.SecondBucketWalk | scripts/nora-tree-house.ts:42-83 | a draw in sunny's second bucket yields foggy; one in foggy's second bucket yields rainy |
| NoraTreeHouse.DampOnlyToSunny | scripts/nora-tree-house.ts:164-170 | damp always moves to sunny |
| NoraTreeHouse.EvenOdds | scripts/nora-tree-house.ts:42-89 | 100 of sunny's 200 draws lead to foggy, and 100 of foggy's 300 draws lead to stormy |
| NoraTreeHouse.ListenerHearsFog | scripts/nora-tree-house.ts:42-55 | a sunny, enabled listener hearing `foggy` says "Weather changes from sunny to foggy" and switches to the foggy profile |
| Replication.ListenerMirrorsController | scripts/controller/weather.ts:84-92 | each broadcast message of a controller `set`, received by an enabled listener on the same model, leaves the listener on the controller's new keyword |
| Replication.OverrideRoundTrip | scripts/listener/listener.ts:114-126 | a valid override at an enabled listener is forwarded to the controller, which adopts the keyword and broadcasts it; the listener does not move yet |
| Replication.InitialInv | scripts/controller/weather.ts:61-66 | the empty first-activation state satisfies the controller's and the listener's invariants, so they hold in every reachable state, and its weather is `defaultWeatherKeyword` |

`NoraTreeHouse.WellFormed` also states these facts:

- every edge leads to a state, has a positive weight and has a narration;
- every duration and delay range has `min < max`;
- every ambience pool is non-empty;
- no table repeats a target.

## Left out

- Command and field registration (`Room.addCommand`), `Script.listen` and `console.log`
  produce no state the engines read.
- The activation banner (`*beep boop* WEATHER CONTROLLER STARTED…`) is not modelled. Neither
  are the `cmdAction.info` replies to the commanding character: they reach only that
  character.
- `JSON.parse` of the override payload, and its `Keyword` field decoding, are not modelled.
  The command's `data`, and the data of a `weather:override` message, are taken to be the
  extracted keyword. So the listener forwards the keyword rather than the JSON text it
  received.
- Message transport between rooms (delivery, order, loss, timing) is not modelled. Posts to
  other scripts are only appended to the outbox. A self-post's delay is recorded but never
  elapses: `DeliverSpec` delivers any live post, in any order.
- The host's choice of post ids is a parameter of each event. Freshness is assumed by the
  invariant lemmas only.
- Floating point is not modelled: the delay is a whole number of milliseconds, divided
  exactly and truncated toward zero. The rounding of the double product
  `Math.random() * totalWeight` is not modelled; the draw is the exact real product.
- Random.RandomTransitionKey does not model u32 wrap-around of `totalWeight` and
  `cumulativeWeight`. It requires the total to stay below 2^32, which holds for
  `NoraTreeHouse.WeatherStates`.
- A Map lookup that misses (`_weatherStates.get` of a keyword without a state) aborts the
  script. The model instead requires the default keyword to be a state; the resolved current
  keyword always is one.
- The controller validates overrides against its `weatherStates` argument, while its engines
  use the map installed by `setWeatherStates`. The model uses one map `m` for both, as the
  entry scripts do.
- The controller's entry script (its `weatherStates` fixture) is not part of this model;
  the concrete fixture is the listener's `nora-tree-house.ts`.
- Build and deployment configuration (`mucklet.config.js`, `test.config.js`) is not
  modelled.
