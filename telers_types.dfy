// The event records of the current library generation (telers/src/types/):
// an update is an id and exactly one kind; a message is one of 51 variants
// sharing a header. Only the fields the accessors and conversions read are
// kept. The chat record (telers/src/types/chat.rs) is not part of this model
// beyond its id.
module TelersTypes {
  import opened Wrappers
  import opened TelersUser

  const MIN_I64: int := -0x8000_0000_0000_0000
  const MAX_I64: int := 0x7fff_ffff_ffff_ffff

  /** A signed 64-bit integer, the width of Telegram's sizes and ids. */
  type I64 = x: int | MIN_I64 <= x <= MAX_I64

  datatype Chat = Chat(id: int)

  datatype PhotoSize = PhotoSize(fileId: string, width: int, height: int, fileSize: Option<I64>)

  /** The media variants that carry a caption (besides Photo). */
  datatype Media = Animation | Audio | Document | Video | Voice

  /** The variants that carry nothing any accessor here reads. */
  datatype Service =
    | Sticker | Story | VideoNote | Contact | Dice | Game | PollMessage | Venue | Location
    | NewChatMembers | LeftChatMember | NewChatTitle | NewChatPhoto | DeleteChatPhoto
    | GroupChatCreated | SupergroupChatCreated | ChannelChatCreated | MessageAutoDeleteTimerChanged
    | Pinned | Invoice | SuccessfulPayment | UsersShared | ChatShared | ConnectedWebsite
    | WriteAccessAllowed | PassportData | ProximityAlertTriggered | ForumTopicCreated
    | ForumTopicEdited | ForumTopicClosed | ForumTopicReopened | GeneralForumTopicHidden
    | GeneralForumTopicUnhidden | GiveawayCreated | Giveaway | GiveawayWinners | GiveawayCompleted
    | VideoChatScheduled | VideoChatStarted | VideoChatEnded | VideoChatParticipantsInvited | WebAppData

  /** What distinguishes the 51 message variants. */
  datatype Body =
    | Text(text: string)
    | Captioned(media: Media, caption: Option<string>)
    | Photo(photo: seq<PhotoSize>, photoCaption: Option<string>)
    | MigrateToChat(toChatId: int)
    | MigrateFromChat(fromChatId: int)
    | Other(service: Service)

  /** The fields every variant has, plus the two only some variants have
      (`via_bot`, read only where the variant declares it). */
  datatype Message = Message(
    id: int, threadId: Option<int>, date: int, chat: Chat,
    from: Option<User>, senderChat: Option<Chat>, viaBot: Option<User>,
    body: Body)

  /** The name of a message variant, as a conversion target. */
  datatype Variant =
    | TextVariant | MediaVariant(media: Media) | PhotoVariant
    | MigrateToChatVariant | MigrateFromChatVariant | ServiceVariant(service: Service)

  function VariantOf(m: Message): (v: Variant)
    ensures v.TextVariant? <==> m.body.Text?
    ensures v.PhotoVariant? <==> m.body.Photo?
  {
    match m.body
    case Text(_) => TextVariant
    case Captioned(media, _) => MediaVariant(media)
    case Photo(_, _) => PhotoVariant
    case MigrateToChat(_) => MigrateToChatVariant
    case MigrateFromChat(_) => MigrateFromChatVariant
    case Other(s) => ServiceVariant(s)
  }

  datatype InaccessibleMessage = InaccessibleMessage(chat: Chat, id: int)

  datatype MaybeInaccessibleMessage =
    | Accessible(message: Message)
    | Inaccessible(inaccessible: InaccessibleMessage)

  datatype CallbackQuery = CallbackQuery(
    id: string, from: User, message: Option<MaybeInaccessibleMessage>, data: Option<string>)

  datatype InlineQuery = InlineQuery(from: User, query: string)
  datatype ChosenInlineResult = ChosenInlineResult(from: User, query: string)
  datatype ShippingQuery = ShippingQuery(from: User, invoicePayload: string)
  datatype PreCheckoutQuery = PreCheckoutQuery(from: User, invoicePayload: string)

  datatype Regular = Regular(id: string, question: string)
  datatype Quiz = Quiz(id: string, question: string, correctOptionId: Option<int>)
  datatype Poll = RegularPoll(regular: Regular) | QuizPoll(quiz: Quiz)

  datatype PollAnswer = PollAnswer(user: Option<User>)
  datatype ChatMemberUpdated = ChatMemberUpdated(chat: Chat, from: User)
  datatype ChatJoinRequest = ChatJoinRequest(chat: Chat, from: User)
  datatype MessageReactionUpdated = MessageReactionUpdated(chat: Chat, user: Option<User>, actorChat: Option<Chat>)
  datatype MessageReactionCountUpdated = MessageReactionCountUpdated(chat: Chat)
  datatype ChatBoostSource = Premium(user: User) | GiftCode | GiveawaySource
  datatype ChatBoostUpdated = ChatBoostUpdated(chat: Chat, boost: ChatBoostSource)
  datatype ChatBoostRemoved = ChatBoostRemoved(chat: Chat)

  /** `update::Kind`: exactly one payload per update. */
  datatype Kind =
    | MessageKind(message: Message)
    | EditedMessage(message: Message)
    | ChannelPost(message: Message)
    | EditedChannelPost(message: Message)
    | MessageReaction(reaction: MessageReactionUpdated)
    | MessageReactionCount(reactionCount: MessageReactionCountUpdated)
    | InlineQueryKind(inlineQuery: InlineQuery)
    | ChosenInlineResultKind(chosen: ChosenInlineResult)
    | CallbackQueryKind(callbackQuery: CallbackQuery)
    | ShippingQueryKind(shipping: ShippingQuery)
    | PreCheckoutQueryKind(preCheckout: PreCheckoutQuery)
    | PollKind(poll: Poll)
    | PollAnswerKind(pollAnswer: PollAnswer)
    | MyChatMember(member: ChatMemberUpdated)
    | ChatMember(member: ChatMemberUpdated)
    | ChatJoinRequestKind(joinRequest: ChatJoinRequest)
    | ChatBoost(boost: ChatBoostUpdated)
    | RemovedChatBoost(removed: ChatBoostRemoved)

  datatype Update = Update(id: int, kind: Kind)

  /** `ConvertToTypeError::new(from, to)`. */
  datatype ConvertToTypeError = ConvertToTypeError(from: string, to: string)

  function IsMessageKind(k: Kind): bool {
    k.MessageKind? || k.EditedMessage? || k.ChannelPost? || k.EditedChannelPost?
  }
}
