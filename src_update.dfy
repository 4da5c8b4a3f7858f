// Accessors of the second generation's update (src/types/update.rs). Each
// one walks a fixed priority of event fields; the first field that is set
// decides the answer, even when that field has no value to give.
module SrcUpdate {
  import opened Wrappers
  import opened SrcTypes

  function TextOrCaptionOf(m: Message): Option<string> {
    if m.text.Some? then m.text else m.caption
  }

  /** The sources of `user`, in priority order. */
  function UserSources(u: Update): seq<Option<Option<User>>> {
    [ MapOption(u.message, (m: Message) => m.from),
      MapOption(u.inlineQuery, (q: InlineQuery) => Some(q.from)),
      MapOption(u.chosenInlineResult, (c: ChosenInlineResult) => Some(c.from)),
      MapOption(u.callbackQuery, (q: CallbackQuery) => Some(q.from)),
      MapOption(u.editedMessage, (m: Message) => m.from),
      MapOption(u.shippingQuery, (q: ShippingQuery) => Some(q.from)),
      MapOption(u.preCheckoutQuery, (q: PreCheckoutQuery) => Some(q.from)),
      MapOption(u.pollAnswer, (a: PollAnswer) => Some(a.user)),
      MapOption(u.myChatMember, (c: ChatMemberUpdated) => Some(c.from)),
      MapOption(u.chatMember, (c: ChatMemberUpdated) => Some(c.from)),
      MapOption(u.chatJoinRequest, (r: ChatJoinRequest) => Some(r.from)) ]
  }

  /** `user` (and its alias `from`). */
  function UserOf(u: Update): (r: Option<User>)
    ensures r == FirstPresent(UserSources(u))
    ensures u.message.Some? ==> r == u.message.value.from
  {
    if u.message.Some? then u.message.value.from
    else if u.inlineQuery.Some? then Some(u.inlineQuery.value.from)
    else if u.chosenInlineResult.Some? then Some(u.chosenInlineResult.value.from)
    else if u.callbackQuery.Some? then Some(u.callbackQuery.value.from)
    else if u.editedMessage.Some? then u.editedMessage.value.from
    else if u.shippingQuery.Some? then Some(u.shippingQuery.value.from)
    else if u.preCheckoutQuery.Some? then Some(u.preCheckoutQuery.value.from)
    else if u.pollAnswer.Some? then Some(u.pollAnswer.value.user)
    else if u.myChatMember.Some? then Some(u.myChatMember.value.from)
    else if u.chatMember.Some? then Some(u.chatMember.value.from)
    else if u.chatJoinRequest.Some? then Some(u.chatJoinRequest.value.from)
    else None
  }

  /** `user_id`. */
  function UserId(u: Update): (r: Option<int>)
    ensures r.Some? <==> UserOf(u).Some?
    ensures r.Some? ==> r.value == UserOf(u).value.id
  {
    if UserOf(u).Some? then Some(UserOf(u).value.id) else None
  }

  /** The sources of `chat`, in priority order. */
  function ChatSources(u: Update): seq<Option<Option<Chat>>> {
    [ MapOption(u.message, (m: Message) => Some(m.chat)),
      MapOption(u.callbackQuery, (q: CallbackQuery) => MapOption(q.message, (m: Message) => m.chat)),
      MapOption(u.channelPost, (m: Message) => Some(m.chat)),
      MapOption(u.editedMessage, (m: Message) => Some(m.chat)),
      MapOption(u.editedChannelPost, (m: Message) => Some(m.chat)),
      MapOption(u.myChatMember, (c: ChatMemberUpdated) => Some(c.chat)),
      MapOption(u.chatMember, (c: ChatMemberUpdated) => Some(c.chat)),
      MapOption(u.chatJoinRequest, (r: ChatJoinRequest) => Some(r.chat)) ]
  }

  /** `chat`. */
  function ChatOf(u: Update): (r: Option<Chat>)
    ensures r == FirstPresent(ChatSources(u))
    ensures u.message.None? && u.callbackQuery.Some? && u.callbackQuery.value.message.None? ==> r.None?
  {
    if u.message.Some? then Some(u.message.value.chat)
    else if u.callbackQuery.Some? then
      (if u.callbackQuery.value.message.Some? then Some(u.callbackQuery.value.message.value.chat) else None)
    else if u.channelPost.Some? then Some(u.channelPost.value.chat)
    else if u.editedMessage.Some? then Some(u.editedMessage.value.chat)
    else if u.editedChannelPost.Some? then Some(u.editedChannelPost.value.chat)
    else if u.myChatMember.Some? then Some(u.myChatMember.value.chat)
    else if u.chatMember.Some? then Some(u.chatMember.value.chat)
    else if u.chatJoinRequest.Some? then Some(u.chatJoinRequest.value.chat)
    else None
  }

  /** `chat_id`. */
  function ChatId(u: Update): (r: Option<int>)
    ensures r.Some? <==> ChatOf(u).Some?
    ensures r.Some? ==> r.value == ChatOf(u).value.id
  {
    if ChatOf(u).Some? then Some(ChatOf(u).value.id) else None
  }

  /** `user_and_chat`. */
  function UserAndChat(u: Update): (r: (Option<User>, Option<Chat>))
    ensures r.0 == UserOf(u) && r.1 == ChatOf(u)
  {
    (UserOf(u), ChatOf(u))
  }

  /** The sources of `text`, in priority order. */
  function TextSources(u: Update): seq<Option<Option<string>>> {
    [ MapOption(u.message, TextOrCaptionOf),
      MapOption(u.inlineQuery, (q: InlineQuery) => Some(q.query)),
      MapOption(u.chosenInlineResult, (c: ChosenInlineResult) => Some(c.query)),
      MapOption(u.callbackQuery, (q: CallbackQuery) => q.data),
      MapOption(u.editedMessage, TextOrCaptionOf),
      MapOption(u.channelPost, TextOrCaptionOf),
      MapOption(u.editedChannelPost, TextOrCaptionOf),
      MapOption(u.shippingQuery, (q: ShippingQuery) => Some(q.invoicePayload)),
      MapOption(u.preCheckoutQuery, (q: PreCheckoutQuery) => Some(q.invoicePayload)),
      MapOption(u.poll, (p: Poll) => Some(p.question)) ]
  }

  /** `text`: for a message-like field the text, else its caption. */
  function Text(u: Update): (r: Option<string>)
    ensures r == FirstPresent(TextSources(u))
    ensures u.message.Some? && u.message.value.text.Some? ==> r == u.message.value.text
    ensures u.message.Some? && u.message.value.text.None? ==> r == u.message.value.caption
  {
    if u.message.Some? then
      (if u.message.value.text.Some? then u.message.value.text else u.message.value.caption)
    else if u.inlineQuery.Some? then Some(u.inlineQuery.value.query)
    else if u.chosenInlineResult.Some? then Some(u.chosenInlineResult.value.query)
    else if u.callbackQuery.Some? then u.callbackQuery.value.data
    else if u.editedMessage.Some? then
      (if u.editedMessage.value.text.Some? then u.editedMessage.value.text else u.editedMessage.value.caption)
    else if u.channelPost.Some? then
      (if u.channelPost.value.text.Some? then u.channelPost.value.text else u.channelPost.value.caption)
    else if u.editedChannelPost.Some? then
      (if u.editedChannelPost.value.text.Some? then u.editedChannelPost.value.text else u.editedChannelPost.value.caption)
    else if u.shippingQuery.Some? then Some(u.shippingQuery.value.invoicePayload)
    else if u.preCheckoutQuery.Some? then Some(u.preCheckoutQuery.value.invoicePayload)
    else if u.poll.Some? then Some(u.poll.value.question)
    else None
  }

  /** `message_thread_id` (and its alias `thread_id`): only a message, an
      edited message or a callback's message carry one. */
  function MessageThreadId(u: Update): (r: Option<int>)
    ensures r.Some? ==>
      ((u.message.Some? && r == u.message.value.messageThreadId)
       || (u.editedMessage.Some? && r == u.editedMessage.value.messageThreadId)
       || (u.callbackQuery.Some? && u.callbackQuery.value.message.Some?
           && r == u.callbackQuery.value.message.value.messageThreadId))
    ensures u.message.Some? ==> r == u.message.value.messageThreadId
    ensures u.message.None? && u.editedMessage.Some? ==> r == u.editedMessage.value.messageThreadId
  {
    if u.message.Some? then u.message.value.messageThreadId
    else if u.editedMessage.Some? then u.editedMessage.value.messageThreadId
    else if u.callbackQuery.Some? then
      (if u.callbackQuery.value.message.Some? then u.callbackQuery.value.message.value.messageThreadId else None)
    else None
  }

  /** A channel post and a poll never provide the user, whatever else is
      set: the user of an update does not depend on those two fields. */
  lemma UserIgnoresChannelPostAndPoll(u: Update, c: Option<Message>, e: Option<Message>, p: Option<Poll>)
    ensures UserOf(u.(channelPost := c, editedChannelPost := e, poll := p)) == UserOf(u)
  {
  }

  /** An update carrying only a channel post has a chat and a text but no
      user and no thread id. */
  lemma ChannelPostOnly(id: int, m: Message)
    ensures UserOf(EmptyUpdate(id).(channelPost := Some(m))).None?
    ensures ChatOf(EmptyUpdate(id).(channelPost := Some(m))) == Some(m.chat)
    ensures Text(EmptyUpdate(id).(channelPost := Some(m))) == TextOrCaptionOf(m)
    ensures MessageThreadId(EmptyUpdate(id).(channelPost := Some(m))).None?
  {
  }
}
