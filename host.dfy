/** The host services the scripts call: the key-value Store, Script.post/cancelPost
    and Room.describe/useProfile. Their state is one value, `HostState`, with one pure
    update per service call; the class `Room` holds that state in fields and offers the
    service calls as methods, each proved to perform the matching update. */
module Host {
  import opened Wrappers
  import opened Random

  /** A stored value: a string (Store.setString) or the one-byte buffer that marks a
      boolean flag (Store.setBuffer). */
  datatype Val = Text(text: string) | Flag

  /** A message posted to another script. */
  datatype Message = Message(addr: string, topic: string, data: Option<string>)

  /** A command a character issued: who, which command (a topic keyword), and its
      argument (for `override weather`, the keyword the JSON payload carries). */
  datatype CmdAction = CmdAction(charId: string, keyword: string, data: string)

  /** A post to the script itself, pending until it is delivered or cancelled. */
  datatype Timer = Timer(topic: string, data: Option<string>, delay: int)

  datatype HostState = HostState(
    store: map<string, Val>,
    timers: map<string, Timer>,   // live self-posts, by post id
    outbox: seq<Message>,         // posts to other scripts, in order
    describes: seq<string>,       // Room.describe output, in order
    profile: Option<string>)      // the room profile last selected

  /** A script's first activation: nothing stored, nothing pending, nothing said. */
  const Initial: HostState := HostState(map[], map[], [], [], None)

  /** What the host answers during one event: the value of each Math.random() call site,
      and the id (or null) that Script.post returns for the weather and ambience self-posts. */
  datatype Env = Env(
    narrate: Unit,            // randomDescribe of a transition narration
    pick: Unit,               // randomTransitionKey
    delay: Unit,              // randomDelay of a weather duration
    ambienceDescribe: Unit,   // randomDescribe of the ambience pool
    ambienceDelay: Unit,      // randomDelay of an ambience delay
    weatherPost: Option<string>,
    ambiencePost: Option<string>)

  /** Store.getString: the string under `key`, if one is stored. */
  function GetString(s: HostState, key: string): Option<string> {
    if key in s.store && s.store[key].Text? then Some(s.store[key].text) else None
  }

  function WithString(s: HostState, key: string, v: string): HostState {
    s.(store := s.store[key := Text(v)])
  }

  function WithFlag(s: HostState, key: string): HostState {
    s.(store := s.store[key := Flag])
  }

  function WithoutKey(s: HostState, key: string): HostState {
    s.(store := s.store - {key})
  }

  function WithDescribe(s: HostState, text: string): HostState {
    s.(describes := s.describes + [text])
  }

  function WithProfile(s: HostState, keyword: string): HostState {
    s.(profile := Some(keyword))
  }

  function WithMessage(s: HostState, addr: string, topic: string, data: Option<string>): HostState {
    s.(outbox := s.outbox + [Message(addr, topic, data)])
  }

  /** A self-post the host accepted under `reply` (or refused, when `reply` is None). */
  function WithTimer(s: HostState, t: Timer, reply: Option<string>): HostState {
    match reply
    case Some(id) => s.(timers := s.timers[id := t])
    case None => s
  }

  /** Script.cancelPost: a no-op for an id that is no longer pending. */
  function WithoutTimer(s: HostState, id: string): HostState {
    s.(timers := s.timers - {id})
  }

  /** The ids of the live self-posts on `topic`. */
  function Live(s: HostState, topic: string): set<string> {
    set id | id in s.timers && s.timers[id].topic == topic
  }

  class Room {
    var store: map<string, Val>
    var timers: map<string, Timer>
    var outbox: seq<Message>
    var describes: seq<string>
    var profile: Option<string>

    function State(): HostState
      reads this
    {
      HostState(store, timers, outbox, describes, profile)
    }

    constructor ()
      ensures State() == Initial
    {
      store, timers, outbox, describes, profile := map[], map[], [], [], None;
    }

    method SetString(key: string, v: string)
      modifies this
      ensures State() == WithString(old(State()), key, v)
    {
      store := store[key := Text(v)];
    }

    method SetBuffer(key: string)
      modifies this
      ensures State() == WithFlag(old(State()), key)
    {
      store := store[key := Flag];
    }

    method DeleteKey(key: string)
      modifies this
      ensures State() == WithoutKey(old(State()), key)
    {
      store := store - {key};
    }

    method Describe(text: string)
      modifies this
      ensures State() == WithDescribe(old(State()), text)
    {
      describes := describes + [text];
    }

    method UseProfile(keyword: string)
      modifies this
      ensures State() == WithProfile(old(State()), keyword)
    {
      profile := Some(keyword);
    }

    /** Script.post to another script. */
    method Post(addr: string, topic: string, data: Option<string>)
      modifies this
      ensures State() == WithMessage(old(State()), addr, topic, data)
    {
      outbox := outbox + [Message(addr, topic, data)];
    }

    /** Script.post to "#" with a delay; the host's answer is `reply`. */
    method PostSelf(topic: string, data: Option<string>, delay: int, reply: Option<string>) returns (id: Option<string>)
      modifies this
      ensures id == reply
      ensures State() == WithTimer(old(State()), Timer(topic, data, delay), reply)
    {
      id := reply;
      if reply.Some? {
        timers := timers[reply.value := Timer(topic, data, delay)];
      }
    }

    method CancelPost(id: string)
      modifies this
      ensures State() == WithoutTimer(old(State()), id)
    {
      timers := timers - {id};
    }
  }
}
