// The update-type enumeration (src/enums/update_type.rs): its 18 variants,
// their snake_case names, and the classification of an update's kind. The
// kind it classifies has the same 18 variants as the current generation's
// `update::Kind` (telers/src/types/update.rs), which is the one used here.
module UpdateTypes {
  import opened Wrappers
  import opened TelersTypes

  datatype UpdateType =
    | MessageType | InlineQueryType | ChosenInlineResultType | CallbackQueryType
    | ChannelPostType | EditedMessageType | EditedChannelPostType
    | MessageReactionType | MessageReactionCountType | ShippingQueryType
    | PreCheckoutQueryType | PollType | PollAnswerType | MyChatMemberType
    | ChatMemberType | ChatJoinRequestType | ChatBoostType | RemovedChatBoostType

  /** `UpdateType::all()`, in declaration order. */
  function All(): (r: seq<UpdateType>)
    ensures |r| == 18
  {
    [MessageType, InlineQueryType, ChosenInlineResultType, CallbackQueryType,
     ChannelPostType, EditedMessageType, EditedChannelPostType, MessageReactionType,
     MessageReactionCountType, ShippingQueryType, PreCheckoutQueryType, PollType,
     PollAnswerType, MyChatMemberType, ChatMemberType, ChatJoinRequestType,
     ChatBoostType, RemovedChatBoostType]
  }

  /** `s` holds only lower-case ASCII letters and underscores. */
  predicate SnakeWord(s: string) {
    forall i | 0 <= i < |s| :: 'a' <= s[i] <= 'z' || s[i] == '_'
  }

  /** The serialized (strum) name of each variant. */
  function Name(t: UpdateType): string {
    match t
    case MessageType => "message"
    case InlineQueryType => "inline_query"
    case ChosenInlineResultType => "chosen_inline_result"
    case CallbackQueryType => "callback_query"
    case ChannelPostType => "channel_post"
    case EditedMessageType => "edited_message"
    case EditedChannelPostType => "edited_channel_post"
    case MessageReactionType => "message_reaction"
    case MessageReactionCountType => "message_reaction_count"
    case ShippingQueryType => "shipping_query"
    case PreCheckoutQueryType => "pre_checkout_query"
    case PollType => "poll"
    case PollAnswerType => "poll_answer"
    case MyChatMemberType => "my_chat_member"
    case ChatMemberType => "chat_member"
    case ChatJoinRequestType => "chat_join_request"
    case ChatBoostType => "chat_boost"
    case RemovedChatBoostType => "removed_chat_boost"
  }

  /** `UpdateType::from_str`: the variant with that exact name, if any. */
  function FromStr(s: string): (r: Option<UpdateType>)
    ensures r.Some? ==> Name(r.value) == s
  {
    if s == "message" then Some(MessageType)
    else if s == "inline_query" then Some(InlineQueryType)
    else if s == "chosen_inline_result" then Some(ChosenInlineResultType)
    else if s == "callback_query" then Some(CallbackQueryType)
    else if s == "channel_post" then Some(ChannelPostType)
    else if s == "edited_message" then Some(EditedMessageType)
    else if s == "edited_channel_post" then Some(EditedChannelPostType)
    else if s == "message_reaction" then Some(MessageReactionType)
    else if s == "message_reaction_count" then Some(MessageReactionCountType)
    else if s == "shipping_query" then Some(ShippingQueryType)
    else if s == "pre_checkout_query" then Some(PreCheckoutQueryType)
    else if s == "poll" then Some(PollType)
    else if s == "poll_answer" then Some(PollAnswerType)
    else if s == "my_chat_member" then Some(MyChatMemberType)
    else if s == "chat_member" then Some(ChatMemberType)
    else if s == "chat_join_request" then Some(ChatJoinRequestType)
    else if s == "chat_boost" then Some(ChatBoostType)
    else if s == "removed_chat_boost" then Some(RemovedChatBoostType)
    else None
  }

  lemma NameRoundTripFirst(t: UpdateType)
    requires t == MessageType || t == InlineQueryType || t == ChosenInlineResultType
          || t == CallbackQueryType || t == ChannelPostType || t == EditedMessageType
    ensures FromStr(Name(t)) == Some(t)
  {
  }

  lemma NameRoundTripMiddle(t: UpdateType)
    requires t == EditedChannelPostType || t == MessageReactionType || t == MessageReactionCountType
          || t == ShippingQueryType || t == PreCheckoutQueryType || t == PollType
    ensures FromStr(Name(t)) == Some(t)
  {
  }

  lemma NameRoundTripLater(t: UpdateType)
    requires t == PollAnswerType || t == MyChatMemberType || t == ChatMemberType
    ensures FromStr(Name(t)) == Some(t)
  {
  }

  lemma NameRoundTripLast(t: UpdateType)
    requires t == ChatJoinRequestType || t == ChatBoostType
    ensures FromStr(Name(t)) == Some(t)
  {
  }

  lemma NameRoundTripRemovedChatBoost()
    ensures FromStr(Name(RemovedChatBoostType)) == Some(RemovedChatBoostType)
  {
  }

  /** Every name parses back to its variant, so the names are distinct. */
  lemma NameRoundTrip(t: UpdateType)
    ensures FromStr(Name(t)) == Some(t)
  {
    match t
    case MessageType | InlineQueryType | ChosenInlineResultType | CallbackQueryType | ChannelPostType | EditedMessageType =>
      NameRoundTripFirst(t);
    case EditedChannelPostType | MessageReactionType | MessageReactionCountType | ShippingQueryType | PreCheckoutQueryType | PollType =>
      NameRoundTripMiddle(t);
    case PollAnswerType | MyChatMemberType | ChatMemberType =>
      NameRoundTripLater(t);
    case ChatJoinRequestType | ChatBoostType =>
      NameRoundTripLast(t);
    case RemovedChatBoostType =>
      NameRoundTripRemovedChatBoost();
  }

  lemma NameIsSnakeWordFirst(t: UpdateType)
    requires t == MessageType || t == InlineQueryType || t == ChosenInlineResultType
          || t == CallbackQueryType || t == ChannelPostType || t == EditedMessageType
    ensures |Name(t)| > 0 && SnakeWord(Name(t))
  {
  }

  lemma NameIsSnakeWordReactions(t: UpdateType)
    requires t == EditedChannelPostType || t == MessageReactionType || t == MessageReactionCountType
    ensures |Name(t)| > 0 && SnakeWord(Name(t))
  {
  }

  lemma NameIsSnakeWordQueries(t: UpdateType)
    requires t == ShippingQueryType || t == PreCheckoutQueryType || t == PollType
    ensures |Name(t)| > 0 && SnakeWord(Name(t))
  {
  }

  lemma NameIsSnakeWordLast(t: UpdateType)
    requires t == PollAnswerType || t == MyChatMemberType || t == ChatMemberType
          || t == ChatJoinRequestType || t == ChatBoostType || t == RemovedChatBoostType
    ensures |Name(t)| > 0 && SnakeWord(Name(t))
  {
  }

  /** Every serialized name is a non-empty word of lower-case letters and
      underscores. */
  lemma NameIsSnakeWord(t: UpdateType)
    ensures |Name(t)| > 0 && SnakeWord(Name(t))
  {
    match t
    case MessageType | InlineQueryType | ChosenInlineResultType | CallbackQueryType | ChannelPostType | EditedMessageType =>
      NameIsSnakeWordFirst(t);
    case EditedChannelPostType | MessageReactionType | MessageReactionCountType =>
      NameIsSnakeWordReactions(t);
    case ShippingQueryType | PreCheckoutQueryType | PollType =>
      NameIsSnakeWordQueries(t);
    case PollAnswerType | MyChatMemberType | ChatMemberType | ChatJoinRequestType | ChatBoostType | RemovedChatBoostType =>
      NameIsSnakeWordLast(t);
  }

  lemma NameInjective(a: UpdateType, b: UpdateType)
    requires Name(a) == Name(b)
    ensures a == b
  {
    NameRoundTrip(a);
    NameRoundTrip(b);
  }

  /** `From<&UpdateKind>`: the type of the kind's own variant. */
  function OfKind(k: Kind): UpdateType {
    match k
    case MessageKind(_) => MessageType
    case EditedMessage(_) => EditedMessageType
    case ChannelPost(_) => ChannelPostType
    case EditedChannelPost(_) => EditedChannelPostType
    case MessageReaction(_) => MessageReactionType
    case MessageReactionCount(_) => MessageReactionCountType
    case InlineQueryKind(_) => InlineQueryType
    case ChosenInlineResultKind(_) => ChosenInlineResultType
    case CallbackQueryKind(_) => CallbackQueryType
    case ShippingQueryKind(_) => ShippingQueryType
    case PreCheckoutQueryKind(_) => PreCheckoutQueryType
    case PollKind(_) => PollType
    case PollAnswerKind(_) => PollAnswerType
    case MyChatMember(_) => MyChatMemberType
    case ChatMember(_) => ChatMemberType
    case ChatJoinRequestKind(_) => ChatJoinRequestType
    case ChatBoost(_) => ChatBoostType
    case RemovedChatBoost(_) => RemovedChatBoostType
  }

  /** `From<&Update>`: the type of the update's kind. */
  function OfUpdate(u: Update): (t: UpdateType)
    ensures t == OfKind(u.kind)
  {
    OfKind(u.kind)
  }

  /** The classification is variant-preserving: two kinds have the same
      type exactly when they are the same variant, whatever their payload. */
  lemma OfKindPreservesVariant(a: Kind, b: Kind)
    ensures OfKind(a) == OfKind(b) <==> SameVariant(a, b)
  {
  }

  predicate SameVariant(a: Kind, b: Kind) {
    (a.MessageKind? && b.MessageKind?) || (a.EditedMessage? && b.EditedMessage?)
    || (a.ChannelPost? && b.ChannelPost?) || (a.EditedChannelPost? && b.EditedChannelPost?)
    || (a.MessageReaction? && b.MessageReaction?) || (a.MessageReactionCount? && b.MessageReactionCount?)
    || (a.InlineQueryKind? && b.InlineQueryKind?) || (a.ChosenInlineResultKind? && b.ChosenInlineResultKind?)
    || (a.CallbackQueryKind? && b.CallbackQueryKind?) || (a.ShippingQueryKind? && b.ShippingQueryKind?)
    || (a.PreCheckoutQueryKind? && b.PreCheckoutQueryKind?) || (a.PollKind? && b.PollKind?)
    || (a.PollAnswerKind? && b.PollAnswerKind?) || (a.MyChatMember? && b.MyChatMember?)
    || (a.ChatMember? && b.ChatMember?) || (a.ChatJoinRequestKind? && b.ChatJoinRequestKind?)
    || (a.ChatBoost? && b.ChatBoost?) || (a.RemovedChatBoost? && b.RemovedChatBoost?)
  }

  /** `all()` lists each variant exactly once. */
  lemma AllDistinct()
    ensures forall i, j :: 0 <= i < j < |All()| ==> All()[i] != All()[j]
  {
  }

  /** ... and misses none. */
  lemma AllComplete(t: UpdateType)
    ensures t in All()
  {
    match t
    case MessageType =>
    case InlineQueryType =>
    case ChosenInlineResultType =>
    case CallbackQueryType =>
    case ChannelPostType =>
    case EditedMessageType =>
    case EditedChannelPostType =>
    case MessageReactionType =>
    case MessageReactionCountType =>
    case ShippingQueryType =>
    case PreCheckoutQueryType =>
    case PollType =>
    case PollAnswerType =>
    case MyChatMemberType =>
    case ChatMemberType =>
    case ChatJoinRequestType =>
    case ChatBoostType =>
    case RemovedChatBoostType =>
  }
}
