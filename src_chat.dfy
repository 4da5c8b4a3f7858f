// The chat-type classification of the second generation (src/types/chat.rs):
// the raw `type` string is mapped to a chat type, and the predicates test
// that mapping.
module SrcChat {
  import opened Wrappers
  import opened SrcTypes

  datatype ChatType = Private | Group | Supergroup | Channel

  /** The wire name of each chat type. */
  function ChatTypeName(t: ChatType): string {
    match t
    case Private => "private"
    case Group => "group"
    case Supergroup => "supergroup"
    case Channel => "channel"
  }

  /** `chat_type`: the type whose name is the raw string, if any. */
  function ChatTypeOf(c: Chat): (r: Option<ChatType>)
    ensures r.Some? ==> ChatTypeName(r.value) == c.chatType
    ensures r.None? ==> forall t: ChatType :: ChatTypeName(t) != c.chatType
  {
    match c.chatType
    case "private" => Some(Private)
    case "group" => Some(Group)
    case "supergroup" => Some(Supergroup)
    case "channel" => Some(Channel)
    case _ => None
  }

  /** Each predicate holds exactly when the raw type string is its own
      chat type's name. */
  predicate IsPrivate(c: Chat)
    ensures IsPrivate(c) <==> c.chatType == "private"
  {
    ChatTypeOf(c) == Some(Private)
  }

  predicate IsGroup(c: Chat)
    ensures IsGroup(c) <==> c.chatType == "group"
  {
    ChatTypeOf(c) == Some(Group)
  }

  predicate IsSupergroup(c: Chat)
    ensures IsSupergroup(c) <==> c.chatType == "supergroup"
  {
    ChatTypeOf(c) == Some(Supergroup)
  }

  predicate IsGroupOrSupergroup(c: Chat)
    ensures IsGroupOrSupergroup(c) <==> c.chatType == "group" || c.chatType == "supergroup"
  {
    IsGroup(c) || IsSupergroup(c)
  }

  predicate IsChannel(c: Chat)
    ensures IsChannel(c) <==> c.chatType == "channel"
  {
    ChatTypeOf(c) == Some(Channel)
  }

  /** Every chat type's name maps back to it. */
  lemma ChatTypeRoundTrip(id: int, t: ChatType)
    ensures ChatTypeOf(Chat(id, ChatTypeName(t))) == Some(t)
  {
  }

  /** At most one of the four predicates holds, and an unknown type string
      makes them all false. */
  lemma Predicates(c: Chat)
    ensures ChatTypeOf(c).None? ==>
      !IsPrivate(c) && !IsGroup(c) && !IsSupergroup(c) && !IsGroupOrSupergroup(c) && !IsChannel(c)
    ensures !(IsPrivate(c) && IsChannel(c)) && !(IsGroup(c) && IsSupergroup(c))
  {
  }
}
