// Handler arguments read from the request context: the keyed and keyless
// lookups generated by `from_context!` / `from_context_into!`
// (src/extractors/from_context.rs), and the user, chat and FSM-context
// extractors of src/extract/middlewares.rs.

/** The outcome of a failed context lookup. The source builds a message
    from the same facts; the message text itself is left out. */
module ContextErrors {
  import RC = RequestContext

  datatype ExtractionError =
    | KeyNotFound(key: string)                   // "No found data in context by key ..."
    | WrongType(key: string, expected: RC.Ty)    // "Data in context by key ... has wrong type ..."
    | TypeNotFound(expected: RC.Ty)              // "No found data in context with type ..."
}

module FromContext {
  import opened Wrappers
  import opened ContextErrors
  import RC = RequestContext

  /** `from_context!` with a key: the stored value when it has the target
      type; otherwise which of the two lookups failed. */
  function Keyed(entries: map<string, RC.Value>, key: string, t: RC.Ty): (r: Result<RC.Value, ExtractionError>)
    ensures r.Ok? <==> key in entries && RC.TypeOf(entries[key]) == t
    ensures r.Ok? ==> r.value == entries[key]
    ensures r.Err? && key !in entries ==> r.error == KeyNotFound(key)
    ensures r.Err? && key in entries ==> r.error == WrongType(key, t)
  {
    if key !in entries then Err(KeyNotFound(key))
    else
      var d := RC.Downcast(entries[key], t);
      if d.Some? then Ok(d.value) else Err(WrongType(key, t))
  }

  /** `from_context_into!` with a key: the same lookup, then the value is
      converted into the wrapper with `into`. */
  function KeyedInto<W>(entries: map<string, RC.Value>, key: string, t: RC.Ty, into: RC.Value -> W): (r: Result<W, ExtractionError>)
    ensures r.Ok? <==> Keyed(entries, key, t).Ok?
    ensures r.Ok? ==> r.value == into(entries[key])
    ensures r.Err? ==> r.error == Keyed(entries, key, t).error
  {
    var v := Keyed(entries, key, t);
    if v.Ok? then Ok(into(v.value)) else Err(v.error)
  }

  /** The keys of `entries` listed once each, in the order the context's
      iterator visits them (that order is unspecified). */
  predicate IsIterationOrder(entries: map<string, RC.Value>, order: seq<string>) {
    (forall i | 0 <= i < |order| :: order[i] in entries)
    && (forall k | k in entries :: k in order)
  }

  /** The first visited value of type `t`, if any. */
  function FirstOfType(entries: map<string, RC.Value>, order: seq<string>, t: RC.Ty): (r: Option<RC.Value>)
    requires forall i | 0 <= i < |order| :: order[i] in entries
    ensures r.Some? ==> RC.TypeOf(r.value) == t && r.value in entries.Values
    ensures r.None? <==> forall i | 0 <= i < |order| :: RC.TypeOf(entries[order[i]]) != t
  {
    if |order| == 0 then None
    else if RC.TypeOf(entries[order[0]]) == t then Some(entries[order[0]])
    else
      var r := FirstOfType(entries, order[1..], t);
      assert forall i | 1 <= i < |order| :: order[i] == order[1..][i - 1];
      r
  }

  /** What the keyless `from_context_into!` as written returns: the first
      visited value of the source type, as the source type itself, since
      the extractor is implemented for the source type and not for the
      wrapper. */
  function KeylessAsWrittenResult(entries: map<string, RC.Value>, order: seq<string>, t: RC.Ty): (r: Result<RC.Value, ExtractionError>)
    requires forall i | 0 <= i < |order| :: order[i] in entries
    ensures r.Ok? <==> exists i | 0 <= i < |order| :: RC.TypeOf(entries[order[i]]) == t
    ensures r.Ok? ==> RC.TypeOf(r.value) == t && r.value in entries.Values
    ensures r.Err? ==> r.error == TypeNotFound(t)
  {
    var found := FirstOfType(entries, order, t);
    if found.Some? then Ok(found.value) else Err(TypeNotFound(t))
  }

  /** What the keyless `from_context_into!` as intended returns: the same
      search, with the value found converted into the wrapper. */
  function KeylessResult<W>(entries: map<string, RC.Value>, order: seq<string>, t: RC.Ty, into: RC.Value -> W): (r: Result<W, ExtractionError>)
    requires forall i | 0 <= i < |order| :: order[i] in entries
    ensures r.Ok? <==> KeylessAsWrittenResult(entries, order, t).Ok?
    ensures r.Ok? ==> r.value == into(KeylessAsWrittenResult(entries, order, t).value)
    ensures r.Err? ==> r.error == TypeNotFound(t)
  {
    match KeylessAsWrittenResult(entries, order, t)
    case Ok(v) => Ok(into(v))
    case Err(e) => Err(e)
  }

  /** The keyless `from_context_into!` as written: the loop visits the
      entries and returns the first value of the source type. */
  method KeylessAsWritten(entries: map<string, RC.Value>, order: seq<string>, t: RC.Ty) returns (r: Result<RC.Value, ExtractionError>)
    requires IsIterationOrder(entries, order)
    ensures r == KeylessAsWrittenResult(entries, order, t)
    ensures r.Ok? ==> r.value == FirstOfType(entries, order, t).value
  {
    var i := 0;
    while i < |order|
      invariant 0 <= i <= |order|
      invariant FirstOfType(entries, order, t) == FirstOfType(entries, order[i..], t)
    {
      assert order[i..][1..] == order[i + 1..];
      var d := RC.Downcast(entries[order[i]], t);
      if d.Some? {
        return Ok(d.value);
      }
      i := i + 1;
    }
    return Err(TypeNotFound(t));
  }

  /** The keyless `from_context_into!` as intended: the same search, and
      the value found is converted into the wrapper. */
  method Keyless<W>(entries: map<string, RC.Value>, order: seq<string>, t: RC.Ty, into: RC.Value -> W) returns (r: Result<W, ExtractionError>)
    requires IsIterationOrder(entries, order)
    ensures r == KeylessResult(entries, order, t, into)
  {
    var found := KeylessAsWritten(entries, order, t);
    if found.Ok? {
      return Ok(into(found.value));
    }
    return Err(found.error);
  }

  /** The keyless search fails exactly when no stored value has the type,
      whatever the iteration order. */
  lemma KeylessFindsAnyStored(entries: map<string, RC.Value>, order: seq<string>, t: RC.Ty)
    requires IsIterationOrder(entries, order)
    ensures FirstOfType(entries, order, t).None? <==> forall k | k in entries :: RC.TypeOf(entries[k]) != t
  {
    if FirstOfType(entries, order, t).None? {
      forall k | k in entries
        ensures RC.TypeOf(entries[k]) != t
      {
        var i :| 0 <= i < |order| && order[i] == k;
      }
    }
  }

  /** A context holding only a value of the source type "A", and a
      conversion into a wrapper: as written the extractor returns the "A"
      value itself, never the wrapper; as intended it returns the
      wrapper. */
  lemma KeylessIntoCounterexample()
    ensures var entries := map["a" := RC.OtherValue("A", "")];
      var into := (v: RC.Value) => RC.OtherValue("Wrapper<A>", "");
      KeylessAsWrittenResult(entries, ["a"], RC.OtherTy("A")) == Ok(RC.OtherValue("A", ""))
      && KeylessResult(entries, ["a"], RC.OtherTy("A"), into) == Ok(RC.OtherValue("Wrapper<A>", ""))
      && KeylessAsWrittenResult(entries, ["a"], RC.OtherTy("A")) != KeylessResult(entries, ["a"], RC.OtherTy("A"), into)
  {
  }
}

/** src/extract/middlewares.rs: the user, chat and FSM context stored by
    the outer middlewares. */
module ExtractMiddlewares {
  import opened Wrappers
  import opened ContextErrors
  import SrcTypes
  import StorageBase
  import RC = RequestContext
  import FromContext

  /** `User::extract`: the "event_user" entry. */
  function ExtractUser(entries: map<string, RC.Value>): (r: Result<SrcTypes.User, ExtractionError>)
    ensures r.Ok? <==> "event_user" in entries && entries["event_user"].SrcUserValue?
    ensures r.Ok? ==> entries["event_user"] == RC.SrcUserValue(r.value)
    ensures r.Err? ==> r.error == FromContext.Keyed(entries, "event_user", RC.SrcUserTy).error
  {
    match FromContext.Keyed(entries, "event_user", RC.SrcUserTy)
    case Ok(v) => Ok(v.user)
    case Err(e) => Err(e)
  }

  /** `Chat::extract`: the "event_chat" entry. */
  function ExtractChat(entries: map<string, RC.Value>): (r: Result<SrcTypes.Chat, ExtractionError>)
    ensures r.Ok? <==> "event_chat" in entries && entries["event_chat"].SrcChatValue?
    ensures r.Ok? ==> entries["event_chat"] == RC.SrcChatValue(r.value)
    ensures r.Err? ==> r.error == FromContext.Keyed(entries, "event_chat", RC.SrcChatTy).error
  {
    match FromContext.Keyed(entries, "event_chat", RC.SrcChatTy)
    case Ok(v) => Ok(v.chat)
    case Err(e) => Err(e)
  }

  /** `FSMContext::extract`: the "fsm_context" entry. */
  function ExtractFsmContext(entries: map<string, RC.Value>): (r: Result<StorageBase.StorageKey, ExtractionError>)
    ensures r.Ok? <==> "fsm_context" in entries && entries["fsm_context"].FsmContextValue?
    ensures r.Ok? ==> entries["fsm_context"] == RC.FsmContextValue(r.value)
    ensures r.Err? ==> r.error == FromContext.Keyed(entries, "fsm_context", RC.FsmContextTy).error
  {
    match FromContext.Keyed(entries, "fsm_context", RC.FsmContextTy)
    case Ok(v) => Ok(v.key)
    case Err(e) => Err(e)
  }

  /** What the user-context middleware stores, these extractors read back. */
  lemma StoredUserAndChatRoundTrip(entries: map<string, RC.Value>, u: SrcTypes.User, c: SrcTypes.Chat)
    ensures ExtractUser(entries["event_user" := RC.SrcUserValue(u)]) == Ok(u)
    ensures ExtractChat(entries["event_chat" := RC.SrcChatValue(c)]) == Ok(c)
    ensures ExtractUser(map[]) == Err(KeyNotFound("event_user"))
  {
  }
}
