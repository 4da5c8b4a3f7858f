// Accessors of the second generation's message (src/types/message.rs) and
// the conversion from an update.
module SrcMessage {
  import opened Wrappers
  import opened SrcTypes

  /** `sender_user_id` (and its alias `user_id`). */
  function SenderUserId(m: Message): (r: Option<int>)
    ensures r.Some? <==> m.from.Some?
    ensures r.Some? ==> r.value == m.from.value.id
  {
    MapOption(m.from, (u: User) => u.id)
  }

  /** `forward_user_id`. */
  function ForwardUserId(m: Message): (r: Option<int>)
    ensures r.Some? <==> m.forwardFrom.Some?
    ensures r.Some? ==> r.value == m.forwardFrom.value.id
  {
    MapOption(m.forwardFrom, (u: User) => u.id)
  }

  /** `forward_chat_id`. */
  function ForwardChatId(m: Message): (r: Option<int>)
    ensures r.Some? <==> m.forwardFromChat.Some?
    ensures r.Some? ==> r.value == m.forwardFromChat.value.id
  {
    MapOption(m.forwardFromChat, (c: Chat) => c.id)
  }

  /** `via_bot_id`. */
  function ViaBotId(m: Message): (r: Option<int>)
    ensures r.Some? <==> m.viaBot.Some?
    ensures r.Some? ==> r.value == m.viaBot.value.id
  {
    MapOption(m.viaBot, (u: User) => u.id)
  }

  /** `user_shared_id`. */
  function UserSharedId(m: Message): (r: Option<int>)
    ensures r.Some? <==> m.userShared.Some?
    ensures r.Some? ==> r.value == m.userShared.value.userId
  {
    MapOption(m.userShared, (s: UserShared) => s.userId)
  }

  /** `sender_chat_id` as written: it returns the id of the chat the
      message belongs to, not of the chat that sent it. */
  function SenderChatIdAsWritten(m: Message): (r: int)
    ensures r == ChatId(m)
  {
    m.chat.id
  }

  /** The sender chat's id, as the accessor's name and documentation
      promise: present exactly when the message was sent on behalf of a
      chat. */
  function SenderChatId(m: Message): (r: Option<int>)
    ensures r.Some? <==> m.senderChat.Some?
    ensures r.Some? ==> r.value == m.senderChat.value.id
  {
    MapOption(m.senderChat, (c: Chat) => c.id)
  }

  /** `chat_id`: the id of the message's chat. */
  function ChatId(m: Message): (r: int)
    ensures r == m.chat.id
  {
    m.chat.id
  }

  /** A message posted in chat 1 on behalf of chat 2: the accessor as
      written reports 1, the sender chat is 2. */
  lemma SenderChatIdDiffers()
    ensures var m := Message(0, None, 0, Chat(1, "supergroup"), None, Some(Chat(2, "channel")),
                             None, None, None, None, None, None, None, None, None, None, None,
                             None, None, None, {});
      SenderChatIdAsWritten(m) == 1 && SenderChatId(m) == Some(2)
  {
  }

  /** `get_text_or_caption`: the text, else the caption. */
  function TextOrCaption(m: Message): (r: Option<string>)
    ensures m.text.Some? ==> r == m.text
    ensures m.text.None? ==> r == m.caption
    ensures r.None? <==> m.text.None? && m.caption.None?
  {
    if m.text.Some? then m.text else m.caption
  }

  /** The sources of `file_id`, in priority order; a photo gives the file
      id of its last (largest) size. */
  function FileSources(m: Message): seq<Option<Option<string>>>
    requires m.photo.Some? ==> |m.photo.value| > 0
  {
    [ MapOption(m.audio, (f: File) => Some(f.fileId)),
      MapOption(m.document, (f: File) => Some(f.fileId)),
      if m.photo.Some? then Some(Some(m.photo.value[|m.photo.value| - 1].fileId)) else None,
      MapOption(m.sticker, (f: File) => Some(f.fileId)),
      MapOption(m.video, (f: File) => Some(f.fileId)),
      MapOption(m.voice, (f: File) => Some(f.fileId)),
      MapOption(m.videoNote, (f: File) => Some(f.fileId)),
      MapOption(m.animation, (f: File) => Some(f.fileId)) ]
  }

  /** `file_id`. The source indexes the photo list by `len() - 1`, which
      panics on an empty list: that is required not to happen when the
      photo is the field consulted. */
  function FileId(m: Message): (r: Option<string>)
    requires m.audio.None? && m.document.None? && m.photo.Some? ==> |m.photo.value| > 0
    ensures m.photo.Some? && |m.photo.value| > 0 ==> r == FirstPresent(FileSources(m))
    ensures m.photo.None? ==> r == FirstPresent(FileSources(m))
    ensures r.None? <==>
      (m.audio.None? && m.document.None? && m.photo.None? && m.sticker.None?
       && m.video.None? && m.voice.None? && m.videoNote.None? && m.animation.None?)
  {
    if m.audio.Some? then Some(m.audio.value.fileId)
    else if m.document.Some? then Some(m.document.value.fileId)
    else if m.photo.Some? then Some(m.photo.value[|m.photo.value| - 1].fileId)
    else if m.sticker.Some? then Some(m.sticker.value.fileId)
    else if m.video.Some? then Some(m.video.value.fileId)
    else if m.voice.Some? then Some(m.voice.value.fileId)
    else if m.videoNote.Some? then Some(m.videoNote.value.fileId)
    else if m.animation.Some? then Some(m.animation.value.fileId)
    else None
  }

  /** An audio wins over every other attachment, even an empty photo list. */
  lemma AudioWins(m: Message)
    requires m.audio.Some?
    ensures FileId(m) == Some(m.audio.value.fileId)
  {
  }

  /** The message-like fields of an update, in the order `TryFrom` tries
      them. */
  function MessageSources(u: Update): seq<Option<Option<Message>>> {
    [Always(u.message), Always(u.editedMessage), Always(u.channelPost), Always(u.editedChannelPost)]
  }

  /** `TryFrom<Update> for Message`. */
  function FromUpdate(u: Update): (r: Result<Message, ConvertUpdateToTypeError>)
    ensures r.Ok? <==> FirstPresent(MessageSources(u)).Some?
    ensures r.Ok? ==> r.value == FirstPresent(MessageSources(u)).value
    ensures r.Err? ==> r.error == ConvertUpdateToTypeError("Message")
  {
    if u.message.Some? then Ok(u.message.value)
    else if u.editedMessage.Some? then Ok(u.editedMessage.value)
    else if u.channelPost.Some? then Ok(u.channelPost.value)
    else if u.editedChannelPost.Some? then Ok(u.editedChannelPost.value)
    else Err(ConvertUpdateToTypeError("Message"))
  }

  /** The conversion fails exactly when none of the four message fields is
      set, and otherwise gives one of them. */
  lemma FromUpdateCases(u: Update)
    ensures FromUpdate(u).Err? <==>
      (u.message.None? && u.editedMessage.None? && u.channelPost.None? && u.editedChannelPost.None?)
    ensures FromUpdate(u).Ok? ==>
      (Some(FromUpdate(u).value) in {u.message, u.editedMessage, u.channelPost, u.editedChannelPost})
  {
    var cs := MessageSources(u);
    if FromUpdate(u).Ok? {
      var i :| 0 <= i < |cs| && cs[i] == Some(FirstPresent(cs));
    }
  }
}
