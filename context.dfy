// The per-update context shared by middlewares, filters and extractors
// (src/context.rs and telers/src/context.rs are not part of this model): a
// map from string keys to values of any type, written in place through a
// shared reference. A stored value is modelled by a tagged union, and a
// downcast to a type succeeds exactly when the value's tag is that type.
module RequestContext {
  import opened Wrappers
  import SrcTypes
  import TelersTypes
  import TelersUser
  import StorageBase
  import CommandObjects

  /** The values the core stores in a context. */
  datatype Value =
    | SrcUserValue(user: SrcTypes.User)
    | SrcChatValue(chat: SrcTypes.Chat)
    | TelersUserValue(telersUser: TelersUser.User)
    | TelersChatValue(telersChat: TelersTypes.Chat)
    | ThreadIdValue(threadId: int)
    | StateValue(state: Option<string>)
    | FsmContextValue(key: StorageBase.StorageKey)
    | FsmStorageValue
    | CommandValue(command: CommandObjects.CommandObject)
    | OtherValue(typeName: string, payload: string)

  /** The runtime type of a value, as `Any::type_id` sees it. */
  datatype Ty =
    | SrcUserTy | SrcChatTy | TelersUserTy | TelersChatTy | ThreadIdTy
    | StateTy | FsmContextTy | FsmStorageTy | CommandTy | OtherTy(name: string)

  function TypeOf(v: Value): Ty {
    match v
    case SrcUserValue(_) => SrcUserTy
    case SrcChatValue(_) => SrcChatTy
    case TelersUserValue(_) => TelersUserTy
    case TelersChatValue(_) => TelersChatTy
    case ThreadIdValue(_) => ThreadIdTy
    case StateValue(_) => StateTy
    case FsmContextValue(_) => FsmContextTy
    case FsmStorageValue => FsmStorageTy
    case CommandValue(_) => CommandTy
    case OtherValue(n, _) => OtherTy(n)
  }

  /** `downcast_ref::<T>()`: the value itself when it has type `t`. */
  function Downcast(v: Value, t: Ty): (r: Option<Value>)
    ensures r.Some? <==> TypeOf(v) == t
    ensures r.Some? ==> r.value == v
  {
    if TypeOf(v) == t then Some(v) else None
  }

  /** A context. `entries` is the whole observable state. */
  class Context {
    var entries: map<string, Value>

    /** `Context::default()`: an empty context. */
    constructor ()
      ensures entries == map[]
    {
      entries := map[];
    }

    /** `get`: the value stored under `key`, if any. */
    function Get(key: string): (r: Option<Value>)
      reads this
      ensures r.Some? <==> key in entries
      ensures r.Some? ==> r.value == entries[key]
    {
      if key in entries then Some(entries[key]) else None
    }

    /** `insert`: stores `v` under `key`, replacing what was there. */
    method Insert(key: string, v: Value)
      modifies this
      ensures entries == old(entries)[key := v]
    {
      entries := entries[key := v];
    }
  }
}
