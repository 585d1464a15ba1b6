/** The timer channels: each engine keeps at most one pending self-post, whose id it
    records under a store key (`weatherPendingPost`, `ambiencePendingPost`). Before
    posting it cancels the recorded post; after posting it records the new id, or deletes
    the key when the host returned null. This is the cancel-before-post discipline of
    sendDelayedPost/cancelWeatherPost and sendAmbiencePost/cancelAmbiencePost. */
module Channel {
  import opened Wrappers
  import opened Config
  import opened Host

  /** A channel: the store key of its token and the topic of its self-posts. */
  datatype Chan = Chan(key: string, topic: string)

  const WeatherChannel: Chan := Chan(WeatherPendingPost, WeatherTick)
  const AmbienceChannel: Chan := Chan(AmbiencePendingPost, AmbienceTick)

  /** The token recorded for a channel, as a set of zero or one ids. */
  function Held(s: HostState, key: string): set<string> {
    match GetString(s, key)
    case Some(id) => {id}
    case None => {}
  }

  /** `cancelWeatherPost`/`cancelAmbiencePost`: cancel the recorded post; the key stays. */
  function CancelSpec(s: HostState, key: string): HostState {
    match GetString(s, key)
    case Some(id) => WithoutTimer(s, id)
    case None => s
  }

  /** The post half of `sendDelayedPost`/`sendAmbiencePost`: cancel the recorded post,
      post `t` to self, record the new id or delete the key. */
  function ReplaceSpec(s: HostState, key: string, t: Timer, reply: Option<string>): HostState {
    var posted := WithTimer(CancelSpec(s, key), t, reply);
    match reply
    case Some(id) => WithString(posted, key, id)
    case None => WithoutKey(posted, key)
  }

  method Cancel(h: Room, key: string)
    modifies h
    ensures h.State() == CancelSpec(old(h.State()), key)
  {
    var pending := GetString(h.State(), key);
    if pending.Some? {
      h.CancelPost(pending.value);
    }
  }

  method Replace(h: Room, key: string, t: Timer, reply: Option<string>)
    modifies h
    ensures h.State() == ReplaceSpec(old(h.State()), key, t, reply)
  {
    Cancel(h, key);
    var id := h.PostSelf(t.topic, t.data, t.delay, reply);
    if id.None? {
      h.DeleteKey(key);
    } else {
      h.SetString(key, id.value);
    }
  }

  /** Every live self-post of the channel is the one whose id the channel records. */
  predicate Owns(s: HostState, c: Chan) {
    Live(s, c.topic) <= Held(s, c.key)
  }

  /** The token invariant: each channel has at most one live post, the recorded one,
      and the two channels never record the same id. */
  predicate Consistent(s: HostState) {
    && Owns(s, WeatherChannel)
    && Owns(s, AmbienceChannel)
    && Held(s, WeatherPendingPost) !! Held(s, AmbiencePendingPost)
  }

  /** The host never hands out an id that is pending or recorded. */
  predicate FreshReply(s: HostState, reply: Option<string>) {
    reply.Some? ==>
      && reply.value !in s.timers
      && reply.value !in Held(s, WeatherPendingPost)
      && reply.value !in Held(s, AmbiencePendingPost)
  }

  predicate FreshReplies(s: HostState, env: Env) {
    && FreshReply(s, env.weatherPost)
    && FreshReply(s, env.ambiencePost)
    && (env.weatherPost.Some? && env.ambiencePost.Some? ==> env.weatherPost != env.ambiencePost)
  }

  /** At most one self-post per channel is live. */
  lemma AtMostOneLive(s: HostState, c: Chan)
    requires Owns(s, c)
    ensures |Live(s, c.topic)| <= 1
    ensures forall a, b :: a in Live(s, c.topic) && b in Live(s, c.topic) ==> a == b
  {
    var live := Live(s, c.topic);
    match GetString(s, c.key)
    case None =>
      assert live == {};
    case Some(id) =>
      if id in live {
        assert live == {id};
      } else {
        assert live == {};
      }
  }

  /** A step that touches neither the timers nor the two token keys keeps the invariant. */
  lemma ConsistentFrame(s: HostState, s': HostState)
    requires Consistent(s)
    requires s'.timers == s.timers
    requires GetString(s', WeatherPendingPost) == GetString(s, WeatherPendingPost)
    requires GetString(s', AmbiencePendingPost) == GetString(s, AmbiencePendingPost)
    ensures Consistent(s')
  {
    assert Live(s', WeatherTick) == Live(s, WeatherTick);
    assert Live(s', AmbienceTick) == Live(s, AmbienceTick);
  }

  /** Cancelling leaves the channel without a live post and the other channel untouched. */
  lemma CancelClears(s: HostState, c: Chan, o: Chan)
    requires Consistent(s)
    requires (c, o) == (WeatherChannel, AmbienceChannel) || (c, o) == (AmbienceChannel, WeatherChannel)
    ensures Live(CancelSpec(s, c.key), c.topic) == {}
    ensures Live(CancelSpec(s, c.key), o.topic) == Live(s, o.topic)
    ensures Consistent(CancelSpec(s, c.key))
    ensures CancelSpec(s, c.key).store == s.store
  {
    var r := CancelSpec(s, c.key);
    assert Live(r, c.topic) == Live(s, c.topic) - Held(s, c.key);
    assert Live(r, o.topic) == Live(s, o.topic) by {
      forall id | id in Live(s, o.topic) ensures id in Live(r, o.topic) {
        assert id in Held(s, o.key);
      }
    }
  }

  /** Replacing a channel's post keeps the invariant and leaves exactly the new post
      live on that channel (none if the host returned null); the other channel is untouched. */
  lemma ReplaceOwns(s: HostState, c: Chan, o: Chan, t: Timer, reply: Option<string>)
    requires Consistent(s) && FreshReply(s, reply) && t.topic == c.topic
    requires (c, o) == (WeatherChannel, AmbienceChannel) || (c, o) == (AmbienceChannel, WeatherChannel)
    ensures var r := ReplaceSpec(s, c.key, t, reply);
      && Consistent(r)
      && Live(r, c.topic) == (if reply.Some? then {reply.value} else {})
      && (reply.Some? ==> r.timers[reply.value] == t)
      && Live(r, o.topic) == Live(s, o.topic)
      && GetString(r, o.key) == GetString(s, o.key)
  {
    CancelClears(s, c, o);
    var s1 := CancelSpec(s, c.key);
    var s2 := WithTimer(s1, t, reply);
    var r := ReplaceSpec(s, c.key, t, reply);
    assert Live(s2, c.topic) == (if reply.Some? then {reply.value} else {});
    assert Live(s2, o.topic) == Live(s, o.topic);
    assert r.timers == s2.timers;
  }
}
