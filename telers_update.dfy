// Accessors of an update's kind, and the rule that picks the kind when an
// update is read (telers/src/types/update.rs). The `Update` accessors only
// delegate to these through `kind()`.
module TelersUpdate {
  import opened Wrappers
  import opened TelersUser
  import opened TelersTypes
  import opened TelersMessage
  import TelersCallbackQuery
  import opened UpdateTypes

  /** `Kind::text`. */
  function KindText(k: Kind): (r: Option<string>)
    ensures IsMessageKind(k) ==> r == TextOf(k.message)
    ensures k.InlineQueryKind? ==> r == Some(k.inlineQuery.query)
    ensures k.ChosenInlineResultKind? ==> r == Some(k.chosen.query)
    ensures k.CallbackQueryKind? ==> r == k.callbackQuery.data
    ensures k.ShippingQueryKind? ==> r == Some(k.shipping.invoicePayload)
    ensures k.PreCheckoutQueryKind? ==> r == Some(k.preCheckout.invoicePayload)
    ensures r.Some? ==> IsMessageKind(k) || k.InlineQueryKind? || k.ChosenInlineResultKind?
                        || k.CallbackQueryKind? || k.ShippingQueryKind? || k.PreCheckoutQueryKind?
  {
    match k
    case MessageKind(m) => TextOf(m)
    case EditedMessage(m) => TextOf(m)
    case ChannelPost(m) => TextOf(m)
    case EditedChannelPost(m) => TextOf(m)
    case InlineQueryKind(q) => Some(q.query)
    case ChosenInlineResultKind(c) => Some(c.query)
    case CallbackQueryKind(q) => q.data
    case ShippingQueryKind(q) => Some(q.invoicePayload)
    case PreCheckoutQueryKind(q) => Some(q.invoicePayload)
    case _ => None
  }

  /** `Kind::caption`: a message's caption, or the caption of a callback's
      accessible message. */
  function KindCaption(k: Kind): (r: Option<string>)
    ensures IsMessageKind(k) ==> r == CaptionOf(k.message)
    ensures k.CallbackQueryKind? ==> r == TelersCallbackQuery.MessageCaption(k.callbackQuery)
    ensures r.Some? ==> IsMessageKind(k) || k.CallbackQueryKind?
  {
    match k
    case MessageKind(m) => CaptionOf(m)
    case EditedMessage(m) => CaptionOf(m)
    case ChannelPost(m) => CaptionOf(m)
    case EditedChannelPost(m) => CaptionOf(m)
    case CallbackQueryKind(q) =>
      if q.message.Some? && q.message.value.Accessible? then CaptionOf(q.message.value.message) else None
    case _ => None
  }

  /** `Kind::text_or_caption`. */
  function KindTextOrCaption(k: Kind): (r: Option<string>)
    ensures KindText(k).Some? ==> r == KindText(k)
    ensures KindText(k).None? ==> r == KindCaption(k)
  {
    if KindText(k).Some? then KindText(k) else KindCaption(k)
  }

  /** `Kind::from`: the sender, wherever the kind records one. */
  function KindFrom(k: Kind): (r: Option<User>)
    ensures IsMessageKind(k) ==> r == k.message.from
    ensures k.PollKind? || k.MessageReactionCount? || k.RemovedChatBoost? ==> r.None?
    ensures k.PollAnswerKind? ==> r == k.pollAnswer.user
    ensures k.MessageReaction? ==> r == k.reaction.user
    ensures k.ChatBoost? ==> (r.Some? <==> k.boost.boost.Premium?)
    ensures (k.InlineQueryKind? || k.ChosenInlineResultKind? || k.CallbackQueryKind?
             || k.ShippingQueryKind? || k.PreCheckoutQueryKind? || k.MyChatMember?
             || k.ChatMember? || k.ChatJoinRequestKind?) ==> r.Some?
  {
    match k
    case MessageKind(m) => m.from
    case EditedMessage(m) => m.from
    case ChannelPost(m) => m.from
    case EditedChannelPost(m) => m.from
    case InlineQueryKind(q) => Some(q.from)
    case ChosenInlineResultKind(c) => Some(c.from)
    case CallbackQueryKind(q) => Some(q.from)
    case ShippingQueryKind(q) => Some(q.from)
    case PreCheckoutQueryKind(q) => Some(q.from)
    case MyChatMember(c) => Some(c.from)
    case ChatMember(c) => Some(c.from)
    case ChatJoinRequestKind(j) => Some(j.from)
    case PollAnswerKind(a) => a.user
    case MessageReaction(m) => m.user
    case ChatBoost(b) => if b.boost.Premium? then Some(b.boost.user) else None
    case PollKind(_) => None
    case MessageReactionCount(_) => None
    case RemovedChatBoost(_) => None
  }

  /** `Kind::from_id`. */
  function KindFromId(k: Kind): (r: Option<int>)
    ensures r.Some? <==> KindFrom(k).Some?
    ensures r.Some? ==> r.value == KindFrom(k).value.id
  {
    MapOption(KindFrom(k), (u: User) => u.id)
  }

  /** `Kind::chat`: a reaction gives its actor chat, not the reacted-in chat. */
  function KindChat(k: Kind): (r: Option<Chat>)
    ensures IsMessageKind(k) ==> r == Some(k.message.chat)
    ensures k.CallbackQueryKind? ==> MapOption(r, (c: Chat) => c.id) == TelersCallbackQuery.ChatId(k.callbackQuery)
    ensures k.MessageReaction? ==> r == k.reaction.actorChat
    ensures (k.InlineQueryKind? || k.ChosenInlineResultKind? || k.ShippingQueryKind?
             || k.PreCheckoutQueryKind? || k.PollAnswerKind? || k.PollKind?) ==> r.None?
    ensures (k.MyChatMember? || k.ChatMember? || k.ChatJoinRequestKind? || k.MessageReactionCount?
             || k.ChatBoost? || k.RemovedChatBoost?) ==> r.Some?
  {
    match k
    case MessageKind(m) => Some(m.chat)
    case EditedMessage(m) => Some(m.chat)
    case ChannelPost(m) => Some(m.chat)
    case EditedChannelPost(m) => Some(m.chat)
    case CallbackQueryKind(q) =>
      (match q.message
       case None => None
       case Some(Accessible(m)) => Some(m.chat)
       case Some(Inaccessible(im)) => Some(im.chat))
    case MyChatMember(c) => Some(c.chat)
    case ChatMember(c) => Some(c.chat)
    case ChatJoinRequestKind(j) => Some(j.chat)
    case MessageReactionCount(c) => Some(c.chat)
    case ChatBoost(b) => Some(b.chat)
    case RemovedChatBoost(b) => Some(b.chat)
    case MessageReaction(m) => m.actorChat
    case _ => None
  }

  /** `Kind::chat_id`. */
  function KindChatId(k: Kind): (r: Option<int>)
    ensures r.Some? <==> KindChat(k).Some?
    ensures r.Some? ==> r.value == KindChat(k).value.id
  {
    MapOption(KindChat(k), (c: Chat) => c.id)
  }

  /** `Kind::sender_chat`: only messages and callbacks' accessible messages. */
  function KindSenderChat(k: Kind): (r: Option<Chat>)
    ensures IsMessageKind(k) ==> r == k.message.senderChat
    ensures k.CallbackQueryKind? ==>
      r == (var a := TelersCallbackQuery.Accessible(k.callbackQuery); if a.Some? then a.value.senderChat else None)
    ensures r.Some? ==> IsMessageKind(k) || k.CallbackQueryKind?
  {
    match k
    case MessageKind(m) => m.senderChat
    case EditedMessage(m) => m.senderChat
    case ChannelPost(m) => m.senderChat
    case EditedChannelPost(m) => m.senderChat
    case CallbackQueryKind(q) =>
      if q.message.Some? && q.message.value.Accessible? then q.message.value.message.senderChat else None
    case _ => None
  }

  /** `Kind::sender_chat_id`. */
  function KindSenderChatId(k: Kind): (r: Option<int>)
    ensures r.Some? <==> KindSenderChat(k).Some?
    ensures r.Some? ==> r.value == KindSenderChat(k).value.id
  {
    MapOption(KindSenderChat(k), (c: Chat) => c.id)
  }

  /** `Kind::message_thread_id`: only messages and callbacks' accessible messages. */
  function KindMessageThreadId(k: Kind): (r: Option<int>)
    ensures IsMessageKind(k) ==> r == k.message.threadId
    ensures k.CallbackQueryKind? ==>
      r == (var a := TelersCallbackQuery.Accessible(k.callbackQuery); if a.Some? then a.value.threadId else None)
    ensures r.Some? ==> IsMessageKind(k) || k.CallbackQueryKind?
  {
    match k
    case MessageKind(m) => m.threadId
    case EditedMessage(m) => m.threadId
    case ChannelPost(m) => m.threadId
    case EditedChannelPost(m) => m.threadId
    case CallbackQueryKind(q) =>
      if q.message.Some? && q.message.value.Accessible? then q.message.value.message.threadId else None
    case _ => None
  }

  /** `Kind::default()`: a message kind holding the default message. */
  function DefaultKind(): (k: Kind)
    ensures k.MessageKind? && k.message == DefaultMessage()
  {
    MessageKind(DefaultMessage())
  }

  /** `From<Update> for Kind`. */
  function KindOf(u: Update): (k: Kind)
    ensures Update(u.id, k) == u
  {
    u.kind
  }

  /** A callback's chat id agrees with the chat the kind reports, and the
      kind's caption is the callback's message caption. */
  lemma CallbackAccessorsAgree(q: CallbackQuery)
    ensures KindChatId(CallbackQueryKind(q)) == TelersCallbackQuery.ChatId(q)
    ensures KindTextOrCaption(CallbackQueryKind(q)) ==
            (if q.data.Some? then q.data else TelersCallbackQuery.MessageCaption(q))
  {
  }

  // ---------------------------------------------------------------------
  // Reading the kind: the first key of the update object (after the
  // flattened-out "update_id") names the type, and its value is read as
  // that type's payload. Payload decoding itself (serde) is a parameter.
  // ---------------------------------------------------------------------

  datatype Decoders<!V> = Decoders(
    message: V -> Option<Message>,
    inlineQuery: V -> Option<InlineQuery>,
    chosenInlineResult: V -> Option<ChosenInlineResult>,
    callbackQuery: V -> Option<CallbackQuery>,
    shippingQuery: V -> Option<ShippingQuery>,
    preCheckoutQuery: V -> Option<PreCheckoutQuery>,
    poll: V -> Option<Poll>,
    pollAnswer: V -> Option<PollAnswer>,
    chatMemberUpdated: V -> Option<ChatMemberUpdated>,
    chatJoinRequest: V -> Option<ChatJoinRequest>,
    messageReaction: V -> Option<MessageReactionUpdated>,
    messageReactionCount: V -> Option<MessageReactionCountUpdated>,
    chatBoost: V -> Option<ChatBoostUpdated>,
    removedChatBoost: V -> Option<ChatBoostRemoved>)

  datatype DeError = UnknownUpdateType(key: string) | NoUpdateTypeKey | KindPayload

  /** Reads the payload of type `t` and wraps it in the matching variant. */
  function DecodePayload<V>(t: UpdateType, v: V, d: Decoders<V>): (r: Option<Kind>)
    ensures r.Some? ==> OfKind(r.value) == t
  {
    match t
    case MessageType => MapOption(d.message(v), (m: Message) => MessageKind(m))
    case InlineQueryType => MapOption(d.inlineQuery(v), (q: InlineQuery) => InlineQueryKind(q))
    case ChosenInlineResultType => MapOption(d.chosenInlineResult(v), (c: ChosenInlineResult) => ChosenInlineResultKind(c))
    case CallbackQueryType => MapOption(d.callbackQuery(v), (q: CallbackQuery) => CallbackQueryKind(q))
    case ChannelPostType => MapOption(d.message(v), (m: Message) => ChannelPost(m))
    case EditedMessageType => MapOption(d.message(v), (m: Message) => EditedMessage(m))
    case EditedChannelPostType => MapOption(d.message(v), (m: Message) => EditedChannelPost(m))
    case ShippingQueryType => MapOption(d.shippingQuery(v), (q: ShippingQuery) => ShippingQueryKind(q))
    case PreCheckoutQueryType => MapOption(d.preCheckoutQuery(v), (q: PreCheckoutQuery) => PreCheckoutQueryKind(q))
    case PollType => MapOption(d.poll(v), (p: Poll) => PollKind(p))
    case PollAnswerType => MapOption(d.pollAnswer(v), (a: PollAnswer) => PollAnswerKind(a))
    case MyChatMemberType => MapOption(d.chatMemberUpdated(v), (c: ChatMemberUpdated) => MyChatMember(c))
    case ChatMemberType => MapOption(d.chatMemberUpdated(v), (c: ChatMemberUpdated) => ChatMember(c))
    case ChatJoinRequestType => MapOption(d.chatJoinRequest(v), (j: ChatJoinRequest) => ChatJoinRequestKind(j))
    case MessageReactionType => MapOption(d.messageReaction(v), (m: MessageReactionUpdated) => MessageReaction(m))
    case MessageReactionCountType => MapOption(d.messageReactionCount(v), (m: MessageReactionCountUpdated) => MessageReactionCount(m))
    case ChatBoostType => MapOption(d.chatBoost(v), (b: ChatBoostUpdated) => ChatBoost(b))
    case RemovedChatBoostType => MapOption(d.removedChatBoost(v), (b: ChatBoostRemoved) => RemovedChatBoost(b))
  }

  /** The `Deserialize` visitor for `Kind`, over the object's entries in order. */
  function DeserializeKind<V>(entries: seq<(string, V)>, d: Decoders<V>): (r: Result<Kind, DeError>)
    ensures |entries| == 0 ==> r == Err(NoUpdateTypeKey)
    ensures |entries| > 0 && FromStr(entries[0].0).None? ==> r == Err(UnknownUpdateType(entries[0].0))
    ensures r.Ok? ==> |entries| > 0 && FromStr(entries[0].0) == Some(OfKind(r.value))
  {
    if |entries| == 0 then Err(NoUpdateTypeKey)
    else
      var t := FromStr(entries[0].0);
      if t.None? then Err(UnknownUpdateType(entries[0].0))
      else
        var k := DecodePayload(t.value, entries[0].1, d);
        if k.None? then Err(KindPayload) else Ok(k.value)
  }

  /** Only the first key decides: later entries never change the outcome,
      and a first key that names a type yields a kind of exactly that type
      whenever its payload reads. */
  lemma FirstKeyDecides<V>(e: (string, V), rest: seq<(string, V)>, d: Decoders<V>, t: UpdateType)
    requires FromStr(e.0) == Some(t)
    ensures DeserializeKind([e] + rest, d) == DeserializeKind([e], d)
    ensures DeserializeKind([e], d).Ok? <==> DecodePayload(t, e.1, d).Some?
    ensures DeserializeKind([e], d).Ok? ==> OfKind(DeserializeKind([e], d).value) == t
  {
  }

  /** An entry named by a type's own name and a payload that reads gives
      that type. */
  lemma NamedEntryReads<V>(t: UpdateType, v: V, d: Decoders<V>)
    requires DecodePayload(t, v, d).Some?
    ensures DeserializeKind([(Name(t), v)], d) == Ok(DecodePayload(t, v, d).value)
  {
    NameRoundTrip(t);
  }
}
