// The FSM storage key and the documented contract of the `Storage` interface
// (src/fsm/storage/base.rs). The interface itself has no code; its documented
// behaviour is stated here as a reference store over which the contract
// lemmas are proved, and which the FSM-context middleware reads from.
// It is the interface's documented contract only: the memory and Redis
// implementations (modules FsmMemory and FsmRedis) keep a stack of previous
// states per key, which this contract does not describe, and are specified
// on their own terms rather than proved against this store.
module StorageBase {
  import opened Wrappers

  const DEFAULT_DESTINY: string := "default"

  /** Identifies one conversation's state and data; equality is structural. */
  datatype StorageKey = StorageKey(botId: int, chatId: int, userId: int, destiny: string)

  /** `StorageKey::new`: the three ids and the default destiny. */
  function NewKey(botId: int, chatId: int, userId: int): (k: StorageKey)
    ensures k.botId == botId && k.chatId == chatId && k.userId == userId
    ensures k.destiny == DEFAULT_DESTINY
  {
    StorageKey(botId, chatId, userId, DEFAULT_DESTINY)
  }

  /** `StorageKey::destiny`: a struct update of the destiny field. */
  function WithDestiny(k: StorageKey, destiny: string): (r: StorageKey)
    ensures r.destiny == destiny
    ensures r.botId == k.botId && r.chatId == k.chatId && r.userId == k.userId
  {
    k.(destiny := destiny)
  }

  /** Two keys built by `new` differ iff one of their ids does, and a key
      renamed to its own destiny is unchanged. */
  lemma KeyIdentity(a: StorageKey, b: StorageKey, d: string)
    ensures NewKey(a.botId, a.chatId, a.userId) == NewKey(b.botId, b.chatId, b.userId)
            <==> (a.botId == b.botId && a.chatId == b.chatId && a.userId == b.userId)
    ensures WithDestiny(WithDestiny(a, d), a.destiny) == a
    ensures WithDestiny(NewKey(a.botId, a.chatId, a.userId), a.destiny) == a
  {
  }

  /** What a storage holds according to the interface documentation: at most
      one state per key, and a data map per key. */
  datatype Store<V> = Store(states: map<StorageKey, string>, data: map<StorageKey, map<string, V>>)

  function EmptyStore<V>(): Store<V> { Store(map[], map[]) }

  function SetState<V>(s: Store<V>, key: StorageKey, state: string): Store<V> {
    s.(states := s.states[key := state])
  }

  function RemoveState<V>(s: Store<V>, key: StorageKey): Store<V> {
    s.(states := s.states - {key})
  }

  /** A key without a state reads as None. */
  function GetState<V>(s: Store<V>, key: StorageKey): Option<string> {
    if key in s.states then Some(s.states[key]) else None
  }

  /** Setting empty data clears the key's data. */
  function SetData<V>(s: Store<V>, key: StorageKey, data: map<string, V>): Store<V> {
    if |data| == 0 then s.(data := s.data - {key}) else s.(data := s.data[key := data])
  }

  function SetValue<V>(s: Store<V>, key: StorageKey, valueKey: string, value: V): Store<V> {
    s.(data := s.data[key := GetData(s, key)[valueKey := value]])
  }

  function RemoveData<V>(s: Store<V>, key: StorageKey): Store<V> {
    s.(data := s.data - {key})
  }

  /** A key without data reads as the empty map. */
  function GetData<V>(s: Store<V>, key: StorageKey): map<string, V> {
    if key in s.data then s.data[key] else map[]
  }

  /** A missing value reads as None. */
  function GetValue<V>(s: Store<V>, key: StorageKey, valueKey: string): Option<V> {
    var d := GetData(s, key);
    if valueKey in d then Some(d[valueKey]) else None
  }

  /** The documented guarantees about states. */
  lemma StateContract<V>(s: Store<V>, key: StorageKey, other: StorageKey, state: string)
    requires other != key
    ensures GetState(SetState(s, key, state), key) == Some(state)
    ensures GetState(RemoveState(s, key), key) == None
    ensures GetState(EmptyStore<V>(), key) == None
    ensures GetState(SetState(s, key, state), other) == GetState(s, other)
  {
  }

  /** The documented guarantees about data. */
  lemma DataContract<V>(s: Store<V>, key: StorageKey, vk: string, v: V, data: map<string, V>)
    ensures GetData(EmptyStore<V>(), key) == map[]
    ensures GetData(SetData(s, key, data), key) == data
    ensures GetValue(SetValue(s, key, vk, v), key, vk) == Some(v)
    ensures GetData(RemoveData(s, key), key) == map[] && GetValue(RemoveData(s, key), key, vk) == None
  {
  }

  /** Data operations on one key leave every other key's data alone. */
  lemma DataFrame<V>(s: Store<V>, key: StorageKey, other: StorageKey, vk: string, v: V, data: map<string, V>)
    requires other != key
    ensures GetData(SetValue(s, key, vk, v), other) == GetData(s, other)
    ensures GetData(SetData(s, key, data), other) == GetData(s, other)
    ensures GetData(RemoveData(s, key), other) == GetData(s, other)
  {
  }

  /** Setting one value keeps every other value of the same key. */
  lemma SetValueKeepsOthers<V>(s: Store<V>, key: StorageKey, vk: string, other: string, v: V)
    requires other != vk
    ensures GetValue(SetValue(s, key, vk, v), key, other) == GetValue(s, key, other)
    ensures GetState(SetValue(s, key, vk, v), key) == GetState(s, key)
  {
  }
}
