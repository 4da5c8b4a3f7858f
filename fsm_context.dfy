// The FSM-context outer middleware of the oldest generation
// (src/dispatcher/middlewares/outer/fsm_context.rs): it resolves the
// storage key of the event's conversation and stores the current state,
// the FSM context and the storage in the request context.
module FsmContextMiddleware {
  import opened Wrappers
  import opened StorageBase
  import opened Events
  import SrcTypes
  import RC = RequestContext

  /** The chat and user ids a strategy picks. */
  datatype IdPair = IdPair(chatId: int, userId: int)

  /** A key strategy (src/fsm/strategy.rs is not part of this model): an
      opaque token, and its `apply` is a parameter of the operations that
      use it. */
  datatype Strategy = Strategy(tag: nat)

  type Apply = (Strategy, int, int) -> IdPair

  /** The middleware's configuration; its storage is left out. */
  datatype FsmContext = FsmContext(strategy: Strategy, destiny: string)

  /** `new` (and `default`): the default strategy and the default
      destiny. */
  function New(defaultStrategy: Strategy): (m: FsmContext)
    ensures m.strategy == defaultStrategy && m.destiny == DEFAULT_DESTINY
  {
    FsmContext(defaultStrategy, DEFAULT_DESTINY)
  }

  /** `strategy`: replaces the strategy only. */
  function WithStrategy(m: FsmContext, s: Strategy): (r: FsmContext)
    ensures r.strategy == s && r.destiny == m.destiny
  {
    m.(strategy := s)
  }

  /** `destiny`: replaces the destiny only. */
  function WithDestiny(m: FsmContext, d: string): (r: FsmContext)
    ensures r.destiny == d && r.strategy == m.strategy
  {
    m.(destiny := d)
  }

  /** `get_context`: the key of the conversation, with the configured
      destiny. */
  function GetContext(m: FsmContext, botId: int, chatId: int, userId: int): (k: StorageKey)
    ensures k.botId == botId && k.chatId == chatId && k.userId == userId && k.destiny == m.destiny
  {
    StorageKey(botId, chatId, userId, m.destiny)
  }

  /** `resolve_context`: no key without a user; a missing chat id falls
      back to the user id before the strategy picks the pair. */
  function ResolveContext(m: FsmContext, apply: Apply, botId: int, chatId: Option<int>, userId: Option<int>): (r: Option<StorageKey>)
    ensures r.None? <==> userId.None?
    ensures r.Some? ==>
      var pair := apply(m.strategy, if chatId.Some? then chatId.value else userId.value, userId.value);
      r.value == StorageKey(botId, pair.chatId, pair.userId, m.destiny)
  {
    if userId.None? then None
    else
      var pair := apply(m.strategy, chatId.UnwrapOr(userId.value), userId.value);
      Some(GetContext(m, botId, pair.chatId, pair.userId))
  }

  /** Without a chat id the conversation is keyed as if the chat were the
      user's private chat. */
  lemma MissingChatIsUserChat(m: FsmContext, apply: Apply, botId: int, userId: int)
    ensures ResolveContext(m, apply, botId, None, Some(userId)) == ResolveContext(m, apply, botId, Some(userId), Some(userId))
  {
  }

  /** The user id of a context entry, if it holds a user. */
  function UserIdOf(v: RC.Value): (r: Option<int>)
    ensures r.Some? <==> v.SrcUserValue?
  {
    if v.SrcUserValue? then Some(v.user.id) else None
  }

  /** The chat id of a context entry, if it holds a chat. */
  function ChatIdOf(v: RC.Value): (r: Option<int>)
    ensures r.Some? <==> v.SrcChatValue?
  {
    if v.SrcChatValue? then Some(v.chat.id) else None
  }

  /** The entries the middleware demands: it panics when the user-context
      middleware has not stored both. */
  predicate HasEventEntries(entries: map<string, RC.Value>) {
    "event_user" in entries && "event_chat" in entries
  }

  /** `resolve_event_context` as written: the "event_chat" entry is
      downcast as a user, so a stored chat never yields a chat id. */
  function ResolveEventContextAsWritten(m: FsmContext, apply: Apply, botId: int, entries: map<string, RC.Value>): (r: Option<StorageKey>)
    requires HasEventEntries(entries)
    ensures r == ResolveContext(m, apply, botId, UserIdOf(entries["event_chat"]), UserIdOf(entries["event_user"]))
  {
    ResolveContext(m, apply, botId, UserIdOf(entries["event_chat"]), UserIdOf(entries["event_user"]))
  }

  /** `resolve_event_context` as intended: the chat entry is read as a
      chat. */
  function ResolveEventContext(m: FsmContext, apply: Apply, botId: int, entries: map<string, RC.Value>): (r: Option<StorageKey>)
    requires HasEventEntries(entries)
    ensures r.None? <==> !entries["event_user"].SrcUserValue?
    ensures r == ResolveContext(m, apply, botId, ChatIdOf(entries["event_chat"]), UserIdOf(entries["event_user"]))
  {
    ResolveContext(m, apply, botId, ChatIdOf(entries["event_chat"]), UserIdOf(entries["event_user"]))
  }

  /** As written, a stored chat is ignored: the key is the one of the
      user's private chat, whatever the chat. */
  lemma AsWrittenIgnoresChat(m: FsmContext, apply: Apply, botId: int, entries: map<string, RC.Value>)
    requires HasEventEntries(entries) && entries["event_chat"].SrcChatValue?
    ensures ResolveEventContextAsWritten(m, apply, botId, entries)
         == ResolveContext(m, apply, botId, None, UserIdOf(entries["event_user"]))
  {
  }

  /** User 7 writes in group 5 and the strategy keeps both ids: as written
      the key's chat is 7, as intended it is 5. */
  lemma ChatDowncastCounterexample()
    ensures var apply: Apply := (s: Strategy, c: int, u: int) => IdPair(c, u);
      var m := New(Strategy(0));
      var entries := map["event_user" := RC.SrcUserValue(SrcTypes.User(7, false, "A", None, None, None)),
                         "event_chat" := RC.SrcChatValue(SrcTypes.Chat(5, "group"))];
      ResolveEventContextAsWritten(m, apply, 1, entries) == Some(StorageKey(1, 7, 7, DEFAULT_DESTINY))
      && ResolveEventContext(m, apply, 1, entries) == Some(StorageKey(1, 5, 7, DEFAULT_DESTINY))
  {
  }

  /** The context after the storing half of `call` for the key it
      resolved, or the error it returns. `getState` is the storage's
      `get_state` for a key, which may fail. The storage is always stored;
      the state and the FSM context exactly when a key was resolved, the
      state being the one stored for that key; no other entry changes. */
  function Stored(key: Option<StorageKey>, entries: map<string, RC.Value>,
                  getState: StorageKey -> Result<Option<string>, string>): (r: Result<map<string, RC.Value>, string>)
    ensures r.Err? <==> key.Some? && getState(key.value).Err?
    ensures r.Err? ==> r.error == "Failed to get FSM state: " + getState(key.value).error
    ensures r.Ok? ==> "fsm_storage" in r.value && r.value["fsm_storage"] == RC.FsmStorageValue
    ensures r.Ok? ==> forall other | other != "state" && other != "fsm_context" && other != "fsm_storage" ::
      (other in r.value <==> other in entries) && (other in entries ==> r.value[other] == entries[other])
    ensures r.Ok? && key.Some? ==>
      "fsm_context" in r.value && r.value["fsm_context"] == RC.FsmContextValue(key.value)
      && "state" in r.value && r.value["state"] == RC.StateValue(getState(key.value).value)
    ensures r.Ok? && key.None? ==> r.value == entries["fsm_storage" := RC.FsmStorageValue]
  {
    if key.None? then Ok(entries["fsm_storage" := RC.FsmStorageValue])
    else
      var state := getState(key.value);
      if state.Err? then Err("Failed to get FSM state: " + state.error)
      else Ok(entries["state" := RC.StateValue(state.value)]["fsm_context" := RC.FsmContextValue(key.value)]
                     ["fsm_storage" := RC.FsmStorageValue])
  }

  /** The context after `call` as written, which resolves the key with
      `ResolveEventContextAsWritten`, or the error it returns. */
  function CallResult(m: FsmContext, apply: Apply, botId: int, entries: map<string, RC.Value>,
                      getState: StorageKey -> Result<Option<string>, string>): (r: Result<map<string, RC.Value>, string>)
    requires HasEventEntries(entries)
    ensures r.Err? <==>
      entries["event_user"].SrcUserValue? && getState(ResolveEventContextAsWritten(m, apply, botId, entries).value).Err?
    ensures r.Ok? && entries["event_user"].SrcUserValue? && entries["event_chat"].SrcChatValue? ==>
      "fsm_context" in r.value && r.value["fsm_context"] == RC.FsmContextValue(ResolveContext(m, apply, botId, None, UserIdOf(entries["event_user"])).value)
  {
    Stored(ResolveEventContextAsWritten(m, apply, botId, entries), entries, getState)
  }

  /** The same with the key resolved as intended. */
  function CallResultCorrected(m: FsmContext, apply: Apply, botId: int, entries: map<string, RC.Value>,
                               getState: StorageKey -> Result<Option<string>, string>): (r: Result<map<string, RC.Value>, string>)
    requires HasEventEntries(entries)
    ensures r.Err? <==>
      entries["event_user"].SrcUserValue? && getState(ResolveEventContext(m, apply, botId, entries).value).Err?
    ensures r.Ok? && entries["event_user"].SrcUserValue? ==>
      "fsm_context" in r.value && r.value["fsm_context"]
      == RC.FsmContextValue(ResolveContext(m, apply, botId, ChatIdOf(entries["event_chat"]), UserIdOf(entries["event_user"])).value)
  {
    Stored(ResolveEventContext(m, apply, botId, entries), entries, getState)
  }

  /** The storing half of `call`: stores "state" and "fsm_context" when
      a key was resolved, always stores "fsm_storage", and lets
      propagation go on. A failing state read is returned as the error,
      after nothing was stored. */
  method Store(key: Option<StorageKey>, ctx: RC.Context,
               getState: StorageKey -> Result<Option<string>, string>) returns (r: Result<EventReturn, string>)
    modifies ctx
    ensures Stored(key, old(ctx.entries), getState).Ok? ==>
      r == Ok(DEFAULT_EVENT_RETURN) && ctx.entries == Stored(key, old(ctx.entries), getState).value
    ensures Stored(key, old(ctx.entries), getState).Err? ==>
      r == Err(Stored(key, old(ctx.entries), getState).error) && ctx.entries == old(ctx.entries)
  {
    if key.Some? {
      var state := getState(key.value);
      if state.Err? {
        return Err("Failed to get FSM state: " + state.error);
      }
      ctx.Insert("state", RC.StateValue(state.value));
      ctx.Insert("fsm_context", RC.FsmContextValue(key.value));
    }
    ctx.Insert("fsm_storage", RC.FsmStorageValue);
    return Ok(DEFAULT_EVENT_RETURN);
  }

  /** `call` as written: the key comes from `resolve_event_context`,
      which reads the chat entry as a user. */
  method Call(m: FsmContext, apply: Apply, botId: int, ctx: RC.Context,
              getState: StorageKey -> Result<Option<string>, string>) returns (r: Result<EventReturn, string>)
    requires HasEventEntries(ctx.entries)
    modifies ctx
    ensures CallResult(m, apply, botId, old(ctx.entries), getState).Ok? ==>
      r == Ok(DEFAULT_EVENT_RETURN) && ctx.entries == CallResult(m, apply, botId, old(ctx.entries), getState).value
    ensures CallResult(m, apply, botId, old(ctx.entries), getState).Err? ==>
      r == Err(CallResult(m, apply, botId, old(ctx.entries), getState).error) && ctx.entries == old(ctx.entries)
  {
    var key := ResolveEventContextAsWritten(m, apply, botId, ctx.entries);
    r := Store(key, ctx, getState);
  }

  /** `call` with the chat entry read as a chat. */
  method CallCorrected(m: FsmContext, apply: Apply, botId: int, ctx: RC.Context,
                       getState: StorageKey -> Result<Option<string>, string>) returns (r: Result<EventReturn, string>)
    requires HasEventEntries(ctx.entries)
    modifies ctx
    ensures CallResultCorrected(m, apply, botId, old(ctx.entries), getState).Ok? ==>
      r == Ok(DEFAULT_EVENT_RETURN) && ctx.entries == CallResultCorrected(m, apply, botId, old(ctx.entries), getState).value
    ensures CallResultCorrected(m, apply, botId, old(ctx.entries), getState).Err? ==>
      r == Err(CallResultCorrected(m, apply, botId, old(ctx.entries), getState).error) && ctx.entries == old(ctx.entries)
  {
    var key := ResolveEventContext(m, apply, botId, ctx.entries);
    r := Store(key, ctx, getState);
  }

  /** What `call` as written stores: the storage always; the state and the
      FSM context exactly when the event has a user, under the key of the
      user's private chat when a chat is stored; no other entry changes. */
  lemma CallEntries(m: FsmContext, apply: Apply, botId: int, entries: map<string, RC.Value>,
                    getState: StorageKey -> Result<Option<string>, string>, other: string)
    requires HasEventEntries(entries)
    requires CallResult(m, apply, botId, entries, getState).Ok?
    requires other != "state" && other != "fsm_context" && other != "fsm_storage"
    ensures var after := CallResult(m, apply, botId, entries, getState).value;
      after["fsm_storage"] == RC.FsmStorageValue
      && (other in after <==> other in entries)
      && (other in entries ==> after[other] == entries[other])
      && (entries["event_user"].SrcUserValue? ==>
            var key := ResolveEventContextAsWritten(m, apply, botId, entries).value;
            (entries["event_chat"].SrcChatValue? ==> key == ResolveContext(m, apply, botId, None, UserIdOf(entries["event_user"])).value)
            && after["fsm_context"] == RC.FsmContextValue(key)
            && after["state"] == RC.StateValue(getState(key).value))
      && (!entries["event_user"].SrcUserValue? ==> after == entries["fsm_storage" := RC.FsmStorageValue])
  {
  }

  /** The same for the corrected `call`: the key is the one of the stored
      chat. */
  lemma CallCorrectedEntries(m: FsmContext, apply: Apply, botId: int, entries: map<string, RC.Value>,
                             getState: StorageKey -> Result<Option<string>, string>, other: string)
    requires HasEventEntries(entries)
    requires CallResultCorrected(m, apply, botId, entries, getState).Ok?
    requires other != "state" && other != "fsm_context" && other != "fsm_storage"
    ensures var after := CallResultCorrected(m, apply, botId, entries, getState).value;
      after["fsm_storage"] == RC.FsmStorageValue
      && (other in after <==> other in entries)
      && (other in entries ==> after[other] == entries[other])
      && (entries["event_user"].SrcUserValue? ==>
            var key := ResolveEventContext(m, apply, botId, entries).value;
            key == ResolveContext(m, apply, botId, ChatIdOf(entries["event_chat"]), UserIdOf(entries["event_user"])).value
            && after["fsm_context"] == RC.FsmContextValue(key)
            && after["state"] == RC.StateValue(getState(key).value))
      && (!entries["event_user"].SrcUserValue? ==> after == entries["fsm_storage" := RC.FsmStorageValue])
  {
  }

  /** User 7 writes in group 5 and the strategy keeps both ids: `call` as
      written stores the FSM context of chat 7, the corrected one that of
      chat 5. */
  lemma CallKeyCounterexample(getState: StorageKey -> Result<Option<string>, string>)
    requires getState(StorageKey(1, 7, 7, DEFAULT_DESTINY)).Ok? && getState(StorageKey(1, 5, 7, DEFAULT_DESTINY)).Ok?
    ensures var apply: Apply := (s: Strategy, c: int, u: int) => IdPair(c, u);
      var m := New(Strategy(0));
      var entries := map["event_user" := RC.SrcUserValue(SrcTypes.User(7, false, "A", None, None, None)),
                         "event_chat" := RC.SrcChatValue(SrcTypes.Chat(5, "group"))];
      CallResult(m, apply, 1, entries, getState).Ok?
      && CallResult(m, apply, 1, entries, getState).value["fsm_context"] == RC.FsmContextValue(StorageKey(1, 7, 7, DEFAULT_DESTINY))
      && CallResultCorrected(m, apply, 1, entries, getState).Ok?
      && CallResultCorrected(m, apply, 1, entries, getState).value["fsm_context"] == RC.FsmContextValue(StorageKey(1, 5, 7, DEFAULT_DESTINY))
  {
    ChatDowncastCounterexample();
  }
}
