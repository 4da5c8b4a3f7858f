// Accessors and conversions of the current generation's message enum
// (telers/src/types/message.rs).
module TelersMessage {
  import opened Wrappers
  import opened TelersUser
  import opened TelersTypes

  /** `Message::default()`: an empty text message. */
  function DefaultMessage(): (m: Message)
    ensures m.body == Text("") && m.from.None? && m.threadId.None?
  {
    Message(0, None, 0, Chat(0), None, None, None, Text(""))
  }

  /** `text`: only the Text variant has one. */
  function TextOf(m: Message): (r: Option<string>)
    ensures r.Some? <==> m.body.Text?
    ensures r.Some? ==> r.value == m.body.text
  {
    if m.body.Text? then Some(m.body.text) else None
  }

  /** `caption`: only the captioned media variants and Photo have one. */
  function CaptionOf(m: Message): (r: Option<string>)
    ensures r.Some? ==> m.body.Captioned? || m.body.Photo?
    ensures m.body.Captioned? ==> r == m.body.caption
    ensures m.body.Photo? ==> r == m.body.photoCaption
  {
    match m.body
    case Captioned(_, caption) => caption
    case Photo(_, caption) => caption
    case _ => None
  }

  /** `text_or_caption`: the text if any, else the caption. */
  function TextOrCaption(m: Message): (r: Option<string>)
    ensures TextOf(m).Some? ==> r == TextOf(m)
    ensures TextOf(m).None? ==> r == CaptionOf(m)
  {
    if TextOf(m).Some? then TextOf(m) else CaptionOf(m)
  }

  /** The variants whose record declares a `via_bot` field. */
  predicate HasViaBot(b: Body) {
    match b
    case Text(_) => true
    case Captioned(_, _) => true
    case Photo(_, _) => true
    case MigrateToChat(_) => false
    case MigrateFromChat(_) => false
    case Other(s) =>
      s in {Sticker, Contact, Game, Venue, Location, LeftChatMember, NewChatTitle, NewChatPhoto,
            DeleteChatPhoto, Pinned, Invoice, SuccessfulPayment, ConnectedWebsite, WriteAccessAllowed,
            ForumTopicCreated, ForumTopicEdited, ForumTopicClosed, ForumTopicReopened,
            GeneralForumTopicHidden, GeneralForumTopicUnhidden, WebAppData}
  }

  /** `via_bot`: the field where the variant has it, None elsewhere. */
  function ViaBot(m: Message): (r: Option<User>)
    ensures HasViaBot(m.body) ==> r == m.viaBot
    ensures !HasViaBot(m.body) ==> r.None?
  {
    if HasViaBot(m.body) then m.viaBot else None
  }

  /** `from_id`: the sender's id. */
  function FromId(m: Message): (r: Option<int>)
    ensures r.Some? <==> m.from.Some?
    ensures r.Some? ==> r.value == m.from.value.id
  {
    MapOption(m.from, (u: User) => u.id)
  }

  /** `sender_chat_id`: the sender chat's id. */
  function SenderChatId(m: Message): (r: Option<int>)
    ensures r.Some? <==> m.senderChat.Some?
    ensures r.Some? ==> r.value == m.senderChat.value.id
  {
    MapOption(m.senderChat, (c: Chat) => c.id)
  }

  /** `migrate_to_chat_id` / `migrate_from_chat_id`. */
  function MigrateToChatId(m: Message): (r: Option<int>)
    ensures r.Some? <==> m.body.MigrateToChat?
    ensures r.Some? ==> r.value == m.body.toChatId
  {
    if m.body.MigrateToChat? then Some(m.body.toChatId) else None
  }

  function MigrateFromChatId(m: Message): (r: Option<int>)
    ensures r.Some? <==> m.body.MigrateFromChat?
    ensures r.Some? ==> r.value == m.body.fromChatId
  {
    if m.body.MigrateFromChat? then Some(m.body.fromChatId) else None
  }

  // ---------------------------------------------------------------------
  // Photo sizes. Rust's `max_by_key` keeps the LAST of equal maxima and
  // `min_by_key` the FIRST of equal minima; both are None on an empty list.
  // ---------------------------------------------------------------------

  function Area(p: PhotoSize): int { p.width + p.height }

  /** Rust's order on `Option<i64>` (None below every Some), as an integer
      rank: None sits one below the smallest i64. */
  function SizeRank(p: PhotoSize): int {
    if p.fileSize.Some? then p.fileSize.value else MIN_I64 - 1
  }

  function MaxIndexByKey(s: seq<PhotoSize>, key: PhotoSize -> int): (i: nat)
    requires |s| > 0
    ensures i < |s|
    ensures forall j :: 0 <= j < |s| ==> key(s[j]) <= key(s[i])
    ensures forall j :: i < j < |s| ==> key(s[j]) < key(s[i])
  {
    if |s| == 1 then 0
    else
      var i := MaxIndexByKey(s[..|s| - 1], key);
      if key(s[i]) <= key(s[|s| - 1]) then |s| - 1 else i
  }

  function MinIndexByKey(s: seq<PhotoSize>, key: PhotoSize -> int): (i: nat)
    requires |s| > 0
    ensures i < |s|
    ensures forall j :: 0 <= j < |s| ==> key(s[i]) <= key(s[j])
    ensures forall j :: 0 <= j < i ==> key(s[i]) < key(s[j])
  {
    if |s| == 1 then 0
    else
      var i := MinIndexByKey(s[..|s| - 1], key);
      if key(s[|s| - 1]) < key(s[i]) then |s| - 1 else i
  }

  function MaxByKey(s: seq<PhotoSize>, key: PhotoSize -> int): (r: Option<PhotoSize>)
    ensures r.None? <==> |s| == 0
    ensures r.Some? ==> r.value in s && forall p :: p in s ==> key(p) <= key(r.value)
  {
    if |s| == 0 then None else Some(s[MaxIndexByKey(s, key)])
  }

  function MinByKey(s: seq<PhotoSize>, key: PhotoSize -> int): (r: Option<PhotoSize>)
    ensures r.None? <==> |s| == 0
    ensures r.Some? ==> r.value in s && forall p :: p in s ==> key(r.value) <= key(p)
  {
    if |s| == 0 then None else Some(s[MinIndexByKey(s, key)])
  }

  /** `photo`: the sizes of a Photo message. */
  function PhotoOf(m: Message): (r: Option<seq<PhotoSize>>)
    ensures r.Some? <==> m.body.Photo?
    ensures r.Some? ==> r.value == m.body.photo
  {
    if m.body.Photo? then Some(m.body.photo) else None
  }

  /** `largest_photo`: the largest size by width + height; None for a
      non-Photo message or an empty list. */
  function LargestPhoto(m: Message): (r: Option<PhotoSize>)
    ensures !m.body.Photo? ==> r.None?
    ensures m.body.Photo? ==> r == MaxByKey(m.body.photo, Area)
  {
    if m.body.Photo? then MaxByKey(m.body.photo, Area) else None
  }

  function SmallestPhoto(m: Message): (r: Option<PhotoSize>)
    ensures !m.body.Photo? ==> r.None?
    ensures m.body.Photo? ==> r == MinByKey(m.body.photo, Area)
  {
    if m.body.Photo? then MinByKey(m.body.photo, Area) else None
  }

  function LargestPhotoByFileSize(m: Message): (r: Option<PhotoSize>)
    ensures !m.body.Photo? ==> r.None?
    ensures m.body.Photo? ==> r == MaxByKey(m.body.photo, SizeRank)
  {
    if m.body.Photo? then MaxByKey(m.body.photo, SizeRank) else None
  }

  function SmallestPhotoByFileSize(m: Message): (r: Option<PhotoSize>)
    ensures !m.body.Photo? ==> r.None?
    ensures m.body.Photo? ==> r == MinByKey(m.body.photo, SizeRank)
  {
    if m.body.Photo? then MinByKey(m.body.photo, SizeRank) else None
  }

  /** Rust's `Ord` on `Option<i64>`, written out. */
  predicate OptionLess(a: Option<I64>, b: Option<I64>) {
    match (a, b)
    case (None, None) => false
    case (None, Some(_)) => true
    case (Some(_), None) => false
    case (Some(x), Some(y)) => x < y
  }

  /** The integer rank orders file sizes exactly as Rust orders them. */
  lemma SizeRankIsOptionOrder(p: PhotoSize, q: PhotoSize)
    ensures SizeRank(p) < SizeRank(q) <==> OptionLess(p.fileSize, q.fileSize)
  {
  }

  /** Ties: the largest is the last of the equal maxima, the smallest the
      first of the equal minima; and a Photo message with sizes always has
      both. */
  lemma {:induction false} PhotoTieBreak(m: Message)
    requires m.body.Photo? && |m.body.photo| > 0
    ensures LargestPhoto(m).Some? && SmallestPhoto(m).Some?
    ensures var s := m.body.photo; var i := MaxIndexByKey(s, Area);
      LargestPhoto(m) == Some(s[i]) && forall j :: i < j < |s| ==> Area(s[j]) < Area(s[i])
    ensures var s := m.body.photo; var i := MinIndexByKey(s, Area);
      SmallestPhoto(m) == Some(s[i]) && forall j :: 0 <= j < i ==> Area(s[i]) < Area(s[j])
  {
  }

  // ---------------------------------------------------------------------
  // Conversions.
  // ---------------------------------------------------------------------

  function MediaName(m: Media): string {
    match m
    case Animation => "Animation"
    case Audio => "Audio"
    case Document => "Document"
    case Video => "Video"
    case Voice => "Voice"
  }

  function ServiceName(s: Service): string {
    match s
    case Sticker => "Sticker" case Story => "Story" case VideoNote => "VideoNote"
    case Contact => "Contact" case Dice => "Dice" case Game => "Game" case PollMessage => "Poll"
    case Venue => "Venue" case Location => "Location" case NewChatMembers => "NewChatMembers"
    case LeftChatMember => "LeftChatMember" case NewChatTitle => "NewChatTitle"
    case NewChatPhoto => "NewChatPhoto" case DeleteChatPhoto => "DeleteChatPhoto"
    case GroupChatCreated => "GroupChatCreated" case SupergroupChatCreated => "SupergroupChatCreated"
    case ChannelChatCreated => "ChannelChatCreated"
    case MessageAutoDeleteTimerChanged => "MessageAutoDeleteTimerChanged"
    case Pinned => "Pinned" case Invoice => "Invoice" case SuccessfulPayment => "SuccessfulPayment"
    case UsersShared => "UsersShared" case ChatShared => "ChatShared"
    case ConnectedWebsite => "ConnectedWebsite" case WriteAccessAllowed => "WriteAccessAllowed"
    case PassportData => "PassportData" case ProximityAlertTriggered => "ProximityAlertTriggered"
    case ForumTopicCreated => "ForumTopicCreated" case ForumTopicEdited => "ForumTopicEdited"
    case ForumTopicClosed => "ForumTopicClosed" case ForumTopicReopened => "ForumTopicReopened"
    case GeneralForumTopicHidden => "GeneralForumTopicHidden"
    case GeneralForumTopicUnhidden => "GeneralForumTopicUnhidden"
    case GiveawayCreated => "GiveawayCreated" case Giveaway => "Giveaway"
    case GiveawayWinners => "GiveawayWinners" case GiveawayCompleted => "GiveawayCompleted"
    case VideoChatScheduled => "VideoChatScheduled" case VideoChatStarted => "VideoChatStarted"
    case VideoChatEnded => "VideoChatEnded"
    case VideoChatParticipantsInvited => "VideoChatParticipantsInvited"
    case WebAppData => "WebAppData"
  }

  /** The type name the conversion error reports. */
  function VariantName(v: Variant): string {
    match v
    case TextVariant => "Text"
    case MediaVariant(m) => MediaName(m)
    case PhotoVariant => "Photo"
    case MigrateToChatVariant => "MigrateToChat"
    case MigrateFromChatVariant => "MigrateFromChat"
    case ServiceVariant(s) => ServiceName(s)
  }

  /** `TryFrom<Message>` for one variant's record. */
  function MessageInto(m: Message, v: Variant): (r: Result<Message, ConvertToTypeError>)
    ensures r.Ok? <==> VariantOf(m) == v
    ensures r.Ok? ==> r.value == m
    ensures r.Err? ==> r.error == ConvertToTypeError("Message", VariantName(v))
  {
    if VariantOf(m) == v then Ok(m) else Err(ConvertToTypeError("Message", VariantName(v)))
  }

  /** `TryFrom<Update> for Message`: the four message kinds only. */
  function MessageFromUpdate(u: Update): (r: Result<Message, ConvertToTypeError>)
    ensures r.Ok? <==> IsMessageKind(u.kind)
    ensures r.Ok? ==> r.value == u.kind.message
    ensures r.Err? ==> r.error == ConvertToTypeError("Update", "Message")
  {
    if IsMessageKind(u.kind) then Ok(u.kind.message) else Err(ConvertToTypeError("Update", "Message"))
  }

  /** `TryFrom<Update>` for a variant's record: through the message. */
  function VariantFromUpdate(u: Update, v: Variant): (r: Result<Message, ConvertToTypeError>)
    ensures !IsMessageKind(u.kind) ==> r == Err(ConvertToTypeError("Update", "Message"))
    ensures IsMessageKind(u.kind) ==> r == MessageInto(u.kind.message, v)
  {
    var m := MessageFromUpdate(u);
    if m.Err? then Err(m.error) else MessageInto(m.value, v)
  }

  /** The conversion to a variant succeeds exactly on a message-carrying
      update whose message is that variant, and then yields that message. */
  lemma VariantFromUpdateExact(u: Update, v: Variant)
    ensures VariantFromUpdate(u, v).Ok? <==> IsMessageKind(u.kind) && VariantOf(u.kind.message) == v
    ensures VariantFromUpdate(u, v).Ok? ==> VariantFromUpdate(u, v).value == u.kind.message
  {
  }
}
