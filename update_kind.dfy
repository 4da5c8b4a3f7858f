// The second generation's update kind (src/types/update_kind.rs) and its
// conversions to the payload types. Each conversion panics on a kind it
// does not accept, so the accepted kinds are its precondition.
module SrcUpdateKind {
  import opened SrcTypes

  datatype UpdateKind =
    | MessageKind(message: Message)
    | EditedMessage(message: Message)
    | ChannelPost(message: Message)
    | EditedChannelPost(message: Message)
    | InlineQueryKind(inlineQuery: InlineQuery)
    | ChosenInlineResultKind(chosen: ChosenInlineResult)
    | CallbackQueryKind(callbackQuery: CallbackQuery)
    | ShippingQueryKind(shippingQuery: ShippingQuery)
    | PreCheckoutQueryKind(preCheckoutQuery: PreCheckoutQuery)
    | PollKind(poll: Poll)
    | PollAnswerKind(pollAnswer: PollAnswer)
    | MyChatMember(member: ChatMemberUpdated)
    | ChatMember(member: ChatMemberUpdated)
    | ChatJoinRequestKind(joinRequest: ChatJoinRequest)

  predicate IsMessageLike(k: UpdateKind) {
    k.MessageKind? || k.EditedMessage? || k.ChannelPost? || k.EditedChannelPost?
  }

  /** `From<UpdateKind> for Message`: any of the four message kinds. */
  function IntoMessage(k: UpdateKind): (m: Message)
    requires IsMessageLike(k)
    ensures k == MessageKind(m) || k == EditedMessage(m) || k == ChannelPost(m) || k == EditedChannelPost(m)
  {
    k.message
  }

  function IntoCallbackQuery(k: UpdateKind): (q: CallbackQuery)
    requires k.CallbackQueryKind?
    ensures k == CallbackQueryKind(q)
  {
    k.callbackQuery
  }

  function IntoInlineQuery(k: UpdateKind): (q: InlineQuery)
    requires k.InlineQueryKind?
    ensures k == InlineQueryKind(q)
  {
    k.inlineQuery
  }

  function IntoChosenInlineResult(k: UpdateKind): (c: ChosenInlineResult)
    requires k.ChosenInlineResultKind?
    ensures k == ChosenInlineResultKind(c)
  {
    k.chosen
  }

  function IntoShippingQuery(k: UpdateKind): (q: ShippingQuery)
    requires k.ShippingQueryKind?
    ensures k == ShippingQueryKind(q)
  {
    k.shippingQuery
  }

  function IntoPreCheckoutQuery(k: UpdateKind): (q: PreCheckoutQuery)
    requires k.PreCheckoutQueryKind?
    ensures k == PreCheckoutQueryKind(q)
  {
    k.preCheckoutQuery
  }

  function IntoPoll(k: UpdateKind): (p: Poll)
    requires k.PollKind?
    ensures k == PollKind(p)
  {
    k.poll
  }

  function IntoPollAnswer(k: UpdateKind): (a: PollAnswer)
    requires k.PollAnswerKind?
    ensures k == PollAnswerKind(a)
  {
    k.pollAnswer
  }

  /** `From<UpdateKind> for ChatMemberUpdated`: either member kind. */
  function IntoChatMemberUpdated(k: UpdateKind): (c: ChatMemberUpdated)
    requires k.MyChatMember? || k.ChatMember?
    ensures k == MyChatMember(c) || k == ChatMember(c)
  {
    k.member
  }

  function IntoChatJoinRequest(k: UpdateKind): (r: ChatJoinRequest)
    requires k.ChatJoinRequestKind?
    ensures k == ChatJoinRequestKind(r)
  {
    k.joinRequest
  }

  /** Wrapping a payload and converting back gives the payload again. */
  lemma ConversionsRoundTrip(m: Message, c: ChatMemberUpdated, q: CallbackQuery)
    ensures IntoMessage(MessageKind(m)) == m && IntoMessage(EditedMessage(m)) == m
    ensures IntoMessage(ChannelPost(m)) == m && IntoMessage(EditedChannelPost(m)) == m
    ensures IntoChatMemberUpdated(MyChatMember(c)) == c && IntoChatMemberUpdated(ChatMember(c)) == c
    ensures IntoCallbackQuery(CallbackQueryKind(q)) == q
  {
  }
}
