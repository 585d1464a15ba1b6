/** scripts/utils/store.ts: a boolean is stored as the presence of its key. */
module StoreUtils {
  import opened Host

  /** `storeGetBool`: whether anything is stored under `key`. */
  function StoreGetBool(s: HostState, key: string): bool {
    key in s.store
  }

  /** The state `storeSetBool` leaves: the flag buffer under `key` for true, no `key` for false. */
  function StoreSetBoolSpec(s: HostState, key: string, value: bool): (r: HostState)
    ensures StoreGetBool(r, key) == value
    ensures !value ==> key !in r.store
    ensures forall k :: k != key ==> (k in r.store <==> k in s.store)
    ensures forall k :: k != key && k in s.store ==> r.store[k] == s.store[k]
    ensures r.timers == s.timers && r.outbox == s.outbox
    ensures r.describes == s.describes && r.profile == s.profile
  {
    if value then WithFlag(s, key) else WithoutKey(s, key)
  }

  /** Setting a flag twice to the same value is the same as setting it once. */
  lemma StoreSetBoolIdempotent(s: HostState, key: string, value: bool)
    ensures StoreSetBoolSpec(StoreSetBoolSpec(s, key, value), key, value) == StoreSetBoolSpec(s, key, value)
  {
  }

  /** The flag read back is the last value written, whatever other flags were written since. */
  lemma StoreGetAfterSet(s: HostState, key: string, value: bool, other: string, v: bool)
    requires other != key
    ensures StoreGetBool(StoreSetBoolSpec(StoreSetBoolSpec(s, key, value), other, v), key) == value
  {
  }

  method StoreSetBool(h: Room, key: string, value: bool)
    modifies h
    ensures h.State() == StoreSetBoolSpec(old(h.State()), key, value)
  {
    if value {
      h.SetBuffer(key);
    } else {
      h.DeleteKey(key);
    }
  }
}
