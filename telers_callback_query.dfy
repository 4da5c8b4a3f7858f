// Accessors of a callback query (telers/src/types/callback_query.rs): they
// look through the optional, possibly inaccessible, message the button was
// attached to.
module TelersCallbackQuery {
  import opened Wrappers
  import opened TelersTypes
  import opened TelersMessage

  /** `chat_id`: the chat of the message, accessible or not. */
  function ChatId(q: CallbackQuery): (r: Option<int>)
    ensures r.None? <==> q.message.None?
    ensures q.message.Some? && q.message.value.Accessible? ==> r == Some(q.message.value.message.chat.id)
    ensures q.message.Some? && q.message.value.Inaccessible? ==> r == Some(q.message.value.inaccessible.chat.id)
  {
    match q.message
    case None => None
    case Some(Accessible(m)) => Some(m.chat.id)
    case Some(Inaccessible(im)) => Some(im.chat.id)
  }

  /** `message_id`: the id of the message, accessible or not. */
  function MessageId(q: CallbackQuery): (r: Option<int>)
    ensures r.None? <==> q.message.None?
    ensures q.message.Some? && q.message.value.Accessible? ==> r == Some(q.message.value.message.id)
    ensures q.message.Some? && q.message.value.Inaccessible? ==> r == Some(q.message.value.inaccessible.id)
  {
    match q.message
    case None => None
    case Some(Accessible(m)) => Some(m.id)
    case Some(Inaccessible(im)) => Some(im.id)
  }

  /** The accessible message, if there is one. */
  function Accessible(q: CallbackQuery): Option<Message> {
    if q.message.Some? && q.message.value.Accessible? then Some(q.message.value.message) else None
  }

  /** `message_text`: None unless the message is accessible. */
  function MessageText(q: CallbackQuery): (r: Option<string>)
    ensures Accessible(q).None? ==> r.None?
    ensures Accessible(q).Some? ==> r == TextOf(Accessible(q).value)
  {
    if Accessible(q).Some? then TextOf(Accessible(q).value) else None
  }

  /** `message_caption`: None unless the message is accessible. */
  function MessageCaption(q: CallbackQuery): (r: Option<string>)
    ensures Accessible(q).None? ==> r.None?
    ensures Accessible(q).Some? ==> r == CaptionOf(Accessible(q).value)
  {
    if Accessible(q).Some? then CaptionOf(Accessible(q).value) else None
  }

  /** `message_text_or_caption`: None unless the message is accessible. */
  function MessageTextOrCaption(q: CallbackQuery): (r: Option<string>)
    ensures Accessible(q).None? ==> r.None?
    ensures Accessible(q).Some? ==> r == TextOrCaption(Accessible(q).value)
  {
    if Accessible(q).Some? then TextOrCaption(Accessible(q).value) else None
  }

  /** The text-or-caption of a callback's message is its text if it has
      one, else its caption. */
  lemma TextOrCaptionPrefersText(q: CallbackQuery)
    ensures MessageText(q).Some? ==> MessageTextOrCaption(q) == MessageText(q)
    ensures MessageText(q).None? ==> MessageTextOrCaption(q) == MessageCaption(q)
  {
  }

  /** `TryFrom<Update>`: only a callback-query update converts. */
  function FromUpdate(u: Update): (r: Result<CallbackQuery, ConvertToTypeError>)
    ensures r.Ok? <==> u.kind.CallbackQueryKind?
    ensures r.Ok? ==> r.value == u.kind.callbackQuery
    ensures r.Err? ==> r.error == ConvertToTypeError("Update", "CallbackQuery")
  {
    if u.kind.CallbackQueryKind? then Ok(u.kind.callbackQuery)
    else Err(ConvertToTypeError("Update", "CallbackQuery"))
  }
}
