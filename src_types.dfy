// The records of the second generation's Telegram types (src/types/*):
// only the fields the accessors, filters and classifiers read are kept.
module SrcTypes {
  import opened Wrappers

  /** A Telegram user (the fields the user filter and the accessors read). */
  datatype User = User(
    id: int,
    isBot: bool,
    firstName: string,
    lastName: Option<string>,
    username: Option<string>,
    languageCode: Option<string>)

  /** A chat: its id and its raw `type` string. */
  datatype Chat = Chat(id: int, chatType: string)

  /** Any file-carrying attachment (audio, document, photo size, sticker,
      video, voice, video note, animation): only its file id matters. */
  datatype File = File(fileId: string)

  datatype UserShared = UserShared(userId: int)

  /** A message. The text, caption, file attachments and `user_shared`
      are typed; every other optional content field is recorded only by
      its presence, as the set of the names of the fields that are set. */
  datatype Message = Message(
    messageId: int,
    messageThreadId: Option<int>,
    date: int,
    chat: Chat,
    from: Option<User>,
    senderChat: Option<Chat>,
    forwardFrom: Option<User>,
    forwardFromChat: Option<Chat>,
    viaBot: Option<User>,
    text: Option<string>,
    caption: Option<string>,
    animation: Option<File>,
    audio: Option<File>,
    document: Option<File>,
    photo: Option<seq<File>>,
    sticker: Option<File>,
    video: Option<File>,
    videoNote: Option<File>,
    voice: Option<File>,
    userShared: Option<UserShared>,
    otherFields: set<string>)

  datatype CallbackQuery = CallbackQuery(id: string, from: User, message: Option<Message>, data: Option<string>)
  datatype InlineQuery = InlineQuery(id: string, from: User, query: string)
  datatype ChosenInlineResult = ChosenInlineResult(resultId: string, from: User, query: string)
  datatype ShippingQuery = ShippingQuery(id: string, from: User, invoicePayload: string)
  datatype PreCheckoutQuery = PreCheckoutQuery(id: string, from: User, invoicePayload: string)
  datatype Poll = Poll(id: string, question: string)
  datatype PollAnswer = PollAnswer(pollId: string, user: User)
  datatype ChatMemberUpdated = ChatMemberUpdated(chat: Chat, from: User)
  datatype ChatJoinRequest = ChatJoinRequest(chat: Chat, from: User)

  /** An update: one optional field per kind of event. */
  datatype Update = Update(
    updateId: int,
    message: Option<Message>,
    editedMessage: Option<Message>,
    channelPost: Option<Message>,
    editedChannelPost: Option<Message>,
    inlineQuery: Option<InlineQuery>,
    chosenInlineResult: Option<ChosenInlineResult>,
    callbackQuery: Option<CallbackQuery>,
    shippingQuery: Option<ShippingQuery>,
    preCheckoutQuery: Option<PreCheckoutQuery>,
    poll: Option<Poll>,
    pollAnswer: Option<PollAnswer>,
    myChatMember: Option<ChatMemberUpdated>,
    chatMember: Option<ChatMemberUpdated>,
    chatJoinRequest: Option<ChatJoinRequest>)

  /** `ConvertUpdateToTypeError::new(type)`. */
  datatype ConvertUpdateToTypeError = ConvertUpdateToTypeError(typeName: string)

  /** The update with no event fields set. */
  function EmptyUpdate(id: int): Update {
    Update(id, None, None, None, None, None, None, None, None, None, None, None, None, None, None)
  }

  /** The accessors below are priority chains: a list of candidate
      sources, each either absent (None) or present with a possibly
      missing value. The first present source decides the result, even
      when its value is missing. */
  function FirstPresent<T>(cs: seq<Option<Option<T>>>): (r: Option<T>)
    ensures r.Some? ==> exists i :: 0 <= i < |cs| && cs[i] == Some(r)
    ensures (forall i | 0 <= i < |cs| :: cs[i].None?) ==> r.None?
    ensures forall i | 0 <= i < |cs| && cs[i].Some? && (forall j | 0 <= j < i :: cs[j].None?) :: r == cs[i].value
    ensures |cs| > 0 && cs[0].Some? ==> r == cs[0].value
    ensures |cs| > 0 && cs[0].None? ==> r == FirstPresent(cs[1..])
  {
    if |cs| == 0 then None
    else if cs[0].Some? then cs[0].value
    else
      var r := FirstPresent(cs[1..]);
      assert forall i | 1 <= i < |cs| :: cs[i] == cs[1..][i - 1];
      r
  }

  /** A present source whose value is always there. */
  function Always<T>(o: Option<T>): Option<Option<T>> {
    if o.Some? then Some(o) else None
  }
}
