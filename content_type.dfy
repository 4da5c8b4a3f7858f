// The content-type classification of the second generation
// (src/enums/content_type.rs): 49 variants with their wire names, the
// constant table of all of them, and the classification of a message by
// the first of its content fields that is set.
module SrcContentType {
  import opened Wrappers
  import SrcTypes

  type Message = SrcTypes.Message

  datatype ContentType =
    | Text | Animation | Audio | Document | Photo
    | Sticker | Story | Video | VideoNote | Voice
    | HasMediaSpoiler | Contact | Dice | Game | Poll
    | Venue | Location | NewChatMembers | LeftChatMember | NewChatTitle
    | NewChatPhoto | DeleteChatPhoto | GroupChatCreated | SupergroupChatCreated | ChannelChatCreated
    | MessageAutoDeleteTimerChanged | MigrateToChatId | MigrateFromChatId | PinnedMessage | Invoice
    | SuccessfulPayment | UserShared | ChatShared | ConnectedWebsite | WriteAccessAllowed
    | PassportData | ProximityAlertTriggered | ForumTopicCreated | ForumTopicEdited | ForumTopicClosed
    | ForumTopicReopened | GeneralForumTopicHidden | GeneralForumTopicUnhidden | VideoChatScheduled | VideoChatStarted
    | VideoChatEnded | VideoChatParticipantsInvited | WebAppData | Unknown

  /** `as_str`; `Display`, `Deref` and `From<ContentType> for String` all
      give this same string. */
  function AsStr(t: ContentType): string {
    match t
    case Text => "text"
    case Animation => "animation"
    case Audio => "audio"
    case Document => "document"
    case Photo => "photo"
    case Sticker => "sticker"
    case Story => "story"
    case Video => "video"
    case VideoNote => "video_note"
    case Voice => "voice"
    case HasMediaSpoiler => "has_media_spoiler"
    case Contact => "contact"
    case Dice => "dice"
    case Game => "game"
    case Poll => "poll"
    case Venue => "venue"
    case Location => "location"
    case NewChatMembers => "new_chat_members"
    case LeftChatMember => "left_chat_member"
    case NewChatTitle => "new_chat_title"
    case NewChatPhoto => "new_chat_photo"
    case DeleteChatPhoto => "delete_chat_photo"
    case GroupChatCreated => "group_chat_created"
    case SupergroupChatCreated => "supergroup_chat_created"
    case ChannelChatCreated => "channel_chat_created"
    case MessageAutoDeleteTimerChanged => "message_auto_delete_timer_changed"
    case MigrateToChatId => "migrate_to_chat_id"
    case MigrateFromChatId => "migrate_from_chat_id"
    case PinnedMessage => "pinned_message"
    case Invoice => "invoice"
    case SuccessfulPayment => "successful_payment"
    case UserShared => "user_shared"
    case ChatShared => "chat_shared"
    case ConnectedWebsite => "connected_website"
    case WriteAccessAllowed => "write_access_allowed"
    case PassportData => "passport_data"
    case ProximityAlertTriggered => "proximity_alert_triggered"
    case ForumTopicCreated => "forum_topic_created"
    case ForumTopicEdited => "forum_topic_edited"
    case ForumTopicClosed => "forum_topic_closed"
    case ForumTopicReopened => "forum_topic_reopened"
    case GeneralForumTopicHidden => "general_forum_topic_hidden"
    case GeneralForumTopicUnhidden => "general_forum_topic_unhidden"
    case VideoChatScheduled => "video_chat_scheduled"
    case VideoChatStarted => "video_chat_started"
    case VideoChatEnded => "video_chat_ended"
    case VideoChatParticipantsInvited => "video_chat_participants_invited"
    case WebAppData => "web_app_data"
    case Unknown => "unknown"
  }

  /** The variant with that wire name, if any. The enum has no parser of
      its own: this inverse exists only so that `AsStrInjective` can be
      proved through `AsStrRoundTrip`. The candidates are narrowed by the
      name's length and first letter to keep each proof obligation small. */
  function FromStr(s: string): (r: Option<ContentType>)
    ensures r.Some? ==> AsStr(r.value) == s
  {
    if |s| == 0 then None else Lookup(s, Candidates(|s|, s[0]))
  }

  /** The variants whose wire name has length `n` and starts with `c`. */
  function Candidates(n: int, c: char): seq<ContentType> {
    match (n, c)
    case (4, 'd') => [Dice]
    case (4, 'g') => [Game]
    case (4, 'p') => [Poll]
    case (4, 't') => [Text]
    case (5, 'a') => [Audio]
    case (5, 'p') => [Photo]
    case (5, 's') => [Story]
    case (5, 'v') => [Video, Voice, Venue]
    case (7, 'c') => [Contact]
    case (7, 'i') => [Invoice]
    case (7, 's') => [Sticker]
    case (7, 'u') => [Unknown]
    case (8, 'd') => [Document]
    case (8, 'l') => [Location]
    case (9, 'a') => [Animation]
    case (10, 'v') => [VideoNote]
    case (11, 'c') => [ChatShared]
    case (11, 'u') => [UserShared]
    case (12, 'w') => [WebAppData]
    case (13, 'p') => [PassportData]
    case (14, 'n') => [NewChatTitle, NewChatPhoto]
    case (14, 'p') => [PinnedMessage]
    case (16, 'l') => [LeftChatMember]
    case (16, 'n') => [NewChatMembers]
    case (16, 'v') => [VideoChatEnded]
    case (17, 'c') => [ConnectedWebsite]
    case (17, 'd') => [DeleteChatPhoto]
    case (17, 'h') => [HasMediaSpoiler]
    case (18, 'f') => [ForumTopicEdited, ForumTopicClosed]
    case (18, 'g') => [GroupChatCreated]
    case (18, 'm') => [MigrateToChatId]
    case (18, 's') => [SuccessfulPayment]
    case (18, 'v') => [VideoChatStarted]
    case (19, 'f') => [ForumTopicCreated]
    case (20, 'c') => [ChannelChatCreated]
    case (20, 'f') => [ForumTopicReopened]
    case (20, 'm') => [MigrateFromChatId]
    case (20, 'v') => [VideoChatScheduled]
    case (20, 'w') => [WriteAccessAllowed]
    case (23, 's') => [SupergroupChatCreated]
    case (25, 'p') => [ProximityAlertTriggered]
    case (26, 'g') => [GeneralForumTopicHidden]
    case (28, 'g') => [GeneralForumTopicUnhidden]
    case (31, 'v') => [VideoChatParticipantsInvited]
    case (33, 'm') => [MessageAutoDeleteTimerChanged]
    case _ => []
  }

  /** The first of `ts` whose wire name is `s`. */
  function Lookup(s: string, ts: seq<ContentType>): (r: Option<ContentType>)
    ensures r.Some? ==> AsStr(r.value) == s
  {
    if |ts| == 0 then None
    else if AsStr(ts[0]) == s then Some(ts[0])
    else Lookup(s, ts[1..])
  }

  /** Every wire name reads back as its variant. */
  lemma AsStrRoundTrip(t: ContentType)
    ensures FromStr(AsStr(t)) == Some(t)
  {
    match t
    case Text => RoundTripText();
    case Animation => RoundTripAnimation();
    case Audio => RoundTripAudio();
    case Document => RoundTripDocument();
    case Photo => RoundTripPhoto();
    case Sticker => RoundTripSticker();
    case Story => RoundTripStory();
    case Video => RoundTripVideo();
    case VideoNote => RoundTripVideoNote();
    case Voice => RoundTripVoice();
    case HasMediaSpoiler => RoundTripHasMediaSpoiler();
    case Contact => RoundTripContact();
    case Dice => RoundTripDice();
    case Game => RoundTripGame();
    case Poll => RoundTripPoll();
    case Venue => RoundTripVenue();
    case Location => RoundTripLocation();
    case NewChatMembers => RoundTripNewChatMembers();
    case LeftChatMember => RoundTripLeftChatMember();
    case NewChatTitle => RoundTripNewChatTitle();
    case NewChatPhoto => RoundTripNewChatPhoto();
    case DeleteChatPhoto => RoundTripDeleteChatPhoto();
    case GroupChatCreated => RoundTripGroupChatCreated();
    case SupergroupChatCreated => RoundTripSupergroupChatCreated();
    case ChannelChatCreated => RoundTripChannelChatCreated();
    case MessageAutoDeleteTimerChanged => RoundTripMessageAutoDeleteTimerChanged();
    case MigrateToChatId => RoundTripMigrateToChatId();
    case MigrateFromChatId => RoundTripMigrateFromChatId();
    case PinnedMessage => RoundTripPinnedMessage();
    case Invoice => RoundTripInvoice();
    case SuccessfulPayment => RoundTripSuccessfulPayment();
    case UserShared => RoundTripUserShared();
    case ChatShared => RoundTripChatShared();
    case ConnectedWebsite => RoundTripConnectedWebsite();
    case WriteAccessAllowed => RoundTripWriteAccessAllowed();
    case PassportData => RoundTripPassportData();
    case ProximityAlertTriggered => RoundTripProximityAlertTriggered();
    case ForumTopicCreated => RoundTripForumTopicCreated();
    case ForumTopicEdited => RoundTripForumTopicEdited();
    case ForumTopicClosed => RoundTripForumTopicClosed();
    case ForumTopicReopened => RoundTripForumTopicReopened();
    case GeneralForumTopicHidden => RoundTripGeneralForumTopicHidden();
    case GeneralForumTopicUnhidden => RoundTripGeneralForumTopicUnhidden();
    case VideoChatScheduled => RoundTripVideoChatScheduled();
    case VideoChatStarted => RoundTripVideoChatStarted();
    case VideoChatEnded => RoundTripVideoChatEnded();
    case VideoChatParticipantsInvited => RoundTripVideoChatParticipantsInvited();
    case WebAppData => RoundTripWebAppData();
    case Unknown => RoundTripUnknown();
  }

  lemma RoundTripText() ensures FromStr(AsStr(Text)) == Some(Text) {
    assert |AsStr(Text)| == 4 && AsStr(Text)[0] == 't';
  }
  lemma RoundTripAnimation() ensures FromStr(AsStr(Animation)) == Some(Animation) {
    assert |AsStr(Animation)| == 9 && AsStr(Animation)[0] == 'a';
  }
  lemma RoundTripAudio() ensures FromStr(AsStr(Audio)) == Some(Audio) {
    assert |AsStr(Audio)| == 5 && AsStr(Audio)[0] == 'a';
  }
  lemma RoundTripDocument() ensures FromStr(AsStr(Document)) == Some(Document) {
    assert |AsStr(Document)| == 8 && AsStr(Document)[0] == 'd';
  }
  lemma RoundTripPhoto() ensures FromStr(AsStr(Photo)) == Some(Photo) {
    assert |AsStr(Photo)| == 5 && AsStr(Photo)[0] == 'p';
  }
  lemma RoundTripSticker() ensures FromStr(AsStr(Sticker)) == Some(Sticker) {
    assert |AsStr(Sticker)| == 7 && AsStr(Sticker)[0] == 's';
  }
  lemma RoundTripStory() ensures FromStr(AsStr(Story)) == Some(Story) {
    assert |AsStr(Story)| == 5 && AsStr(Story)[0] == 's';
  }
  lemma RoundTripVideo() ensures FromStr(AsStr(Video)) == Some(Video) {
    assert |AsStr(Video)| == 5 && AsStr(Video)[0] == 'v';
  }
  lemma RoundTripVideoNote() ensures FromStr(AsStr(VideoNote)) == Some(VideoNote) {
    assert |AsStr(VideoNote)| == 10 && AsStr(VideoNote)[0] == 'v';
  }
  lemma RoundTripVoice() ensures FromStr(AsStr(Voice)) == Some(Voice) {
    assert |AsStr(Voice)| == 5 && AsStr(Voice)[0] == 'v';
    assert AsStr(Video)[1] == 'i' && AsStr(Voice)[1] == 'o';
    assert [Video, Voice, Venue][1..] == [Voice, Venue];
  }
  lemma RoundTripHasMediaSpoiler() ensures FromStr(AsStr(HasMediaSpoiler)) == Some(HasMediaSpoiler) {
    assert |AsStr(HasMediaSpoiler)| == 17 && AsStr(HasMediaSpoiler)[0] == 'h';
  }
  lemma RoundTripContact() ensures FromStr(AsStr(Contact)) == Some(Contact) {
    assert |AsStr(Contact)| == 7 && AsStr(Contact)[0] == 'c';
  }
  lemma RoundTripDice() ensures FromStr(AsStr(Dice)) == Some(Dice) {
    assert |AsStr(Dice)| == 4 && AsStr(Dice)[0] == 'd';
  }
  lemma RoundTripGame() ensures FromStr(AsStr(Game)) == Some(Game) {
    assert |AsStr(Game)| == 4 && AsStr(Game)[0] == 'g';
  }
  lemma RoundTripPoll() ensures FromStr(AsStr(Poll)) == Some(Poll) {
    assert |AsStr(Poll)| == 4 && AsStr(Poll)[0] == 'p';
  }
  lemma RoundTripVenue() ensures FromStr(AsStr(Venue)) == Some(Venue) {
    assert |AsStr(Venue)| == 5 && AsStr(Venue)[0] == 'v';
    assert AsStr(Video)[1] == 'i' && AsStr(Venue)[1] == 'e';
    assert [Video, Voice, Venue][1..] == [Voice, Venue];
    assert AsStr(Voice)[1] == 'o' && AsStr(Venue)[1] == 'e';
    assert [Voice, Venue][1..] == [Venue];
  }
  lemma RoundTripLocation() ensures FromStr(AsStr(Location)) == Some(Location) {
    assert |AsStr(Location)| == 8 && AsStr(Location)[0] == 'l';
  }
  lemma RoundTripNewChatMembers() ensures FromStr(AsStr(NewChatMembers)) == Some(NewChatMembers) {
    assert |AsStr(NewChatMembers)| == 16 && AsStr(NewChatMembers)[0] == 'n';
  }
  lemma RoundTripLeftChatMember() ensures FromStr(AsStr(LeftChatMember)) == Some(LeftChatMember) {
    assert |AsStr(LeftChatMember)| == 16 && AsStr(LeftChatMember)[0] == 'l';
  }
  lemma RoundTripNewChatTitle() ensures FromStr(AsStr(NewChatTitle)) == Some(NewChatTitle) {
    assert |AsStr(NewChatTitle)| == 14 && AsStr(NewChatTitle)[0] == 'n';
  }
  lemma RoundTripNewChatPhoto() ensures FromStr(AsStr(NewChatPhoto)) == Some(NewChatPhoto) {
    assert |AsStr(NewChatPhoto)| == 14 && AsStr(NewChatPhoto)[0] == 'n';
    assert AsStr(NewChatTitle)[9] == 't' && AsStr(NewChatPhoto)[9] == 'p';
    assert [NewChatTitle, NewChatPhoto][1..] == [NewChatPhoto];
  }
  lemma RoundTripDeleteChatPhoto() ensures FromStr(AsStr(DeleteChatPhoto)) == Some(DeleteChatPhoto) {
    assert |AsStr(DeleteChatPhoto)| == 17 && AsStr(DeleteChatPhoto)[0] == 'd';
  }
  lemma RoundTripGroupChatCreated() ensures FromStr(AsStr(GroupChatCreated)) == Some(GroupChatCreated) {
    assert |AsStr(GroupChatCreated)| == 18 && AsStr(GroupChatCreated)[0] == 'g';
  }
  lemma RoundTripSupergroupChatCreated() ensures FromStr(AsStr(SupergroupChatCreated)) == Some(SupergroupChatCreated) {
    assert |AsStr(SupergroupChatCreated)| == 23 && AsStr(SupergroupChatCreated)[0] == 's';
  }
  lemma RoundTripChannelChatCreated() ensures FromStr(AsStr(ChannelChatCreated)) == Some(ChannelChatCreated) {
    assert |AsStr(ChannelChatCreated)| == 20 && AsStr(ChannelChatCreated)[0] == 'c';
  }
  lemma RoundTripMessageAutoDeleteTimerChanged() ensures FromStr(AsStr(MessageAutoDeleteTimerChanged)) == Some(MessageAutoDeleteTimerChanged) {
    assert |AsStr(MessageAutoDeleteTimerChanged)| == 33 && AsStr(MessageAutoDeleteTimerChanged)[0] == 'm';
  }
  lemma RoundTripMigrateToChatId() ensures FromStr(AsStr(MigrateToChatId)) == Some(MigrateToChatId) {
    assert |AsStr(MigrateToChatId)| == 18 && AsStr(MigrateToChatId)[0] == 'm';
  }
  lemma RoundTripMigrateFromChatId() ensures FromStr(AsStr(MigrateFromChatId)) == Some(MigrateFromChatId) {
    assert |AsStr(MigrateFromChatId)| == 20 && AsStr(MigrateFromChatId)[0] == 'm';
  }
  lemma RoundTripPinnedMessage() ensures FromStr(AsStr(PinnedMessage)) == Some(PinnedMessage) {
    assert |AsStr(PinnedMessage)| == 14 && AsStr(PinnedMessage)[0] == 'p';
  }
  lemma RoundTripInvoice() ensures FromStr(AsStr(Invoice)) == Some(Invoice) {
    assert |AsStr(Invoice)| == 7 && AsStr(Invoice)[0] == 'i';
  }
  lemma RoundTripSuccessfulPayment() ensures FromStr(AsStr(SuccessfulPayment)) == Some(SuccessfulPayment) {
    assert |AsStr(SuccessfulPayment)| == 18 && AsStr(SuccessfulPayment)[0] == 's';
  }
  lemma RoundTripUserShared() ensures FromStr(AsStr(UserShared)) == Some(UserShared) {
    assert |AsStr(UserShared)| == 11 && AsStr(UserShared)[0] == 'u';
  }
  lemma RoundTripChatShared() ensures FromStr(AsStr(ChatShared)) == Some(ChatShared) {
    assert |AsStr(ChatShared)| == 11 && AsStr(ChatShared)[0] == 'c';
  }
  lemma RoundTripConnectedWebsite() ensures FromStr(AsStr(ConnectedWebsite)) == Some(ConnectedWebsite) {
    assert |AsStr(ConnectedWebsite)| == 17 && AsStr(ConnectedWebsite)[0] == 'c';
  }
  lemma RoundTripWriteAccessAllowed() ensures FromStr(AsStr(WriteAccessAllowed)) == Some(WriteAccessAllowed) {
    assert |AsStr(WriteAccessAllowed)| == 20 && AsStr(WriteAccessAllowed)[0] == 'w';
  }
  lemma RoundTripPassportData() ensures FromStr(AsStr(PassportData)) == Some(PassportData) {
    assert |AsStr(PassportData)| == 13 && AsStr(PassportData)[0] == 'p';
  }
  lemma RoundTripProximityAlertTriggered() ensures FromStr(AsStr(ProximityAlertTriggered)) == Some(ProximityAlertTriggered) {
    assert |AsStr(ProximityAlertTriggered)| == 25 && AsStr(ProximityAlertTriggered)[0] == 'p';
  }
  lemma RoundTripForumTopicCreated() ensures FromStr(AsStr(ForumTopicCreated)) == Some(ForumTopicCreated) {
    assert |AsStr(ForumTopicCreated)| == 19 && AsStr(ForumTopicCreated)[0] == 'f';
  }
  lemma RoundTripForumTopicEdited() ensures FromStr(AsStr(ForumTopicEdited)) == Some(ForumTopicEdited) {
    assert |AsStr(ForumTopicEdited)| == 18 && AsStr(ForumTopicEdited)[0] == 'f';
  }
  lemma RoundTripForumTopicClosed() ensures FromStr(AsStr(ForumTopicClosed)) == Some(ForumTopicClosed) {
    assert |AsStr(ForumTopicClosed)| == 18 && AsStr(ForumTopicClosed)[0] == 'f';
    assert AsStr(ForumTopicEdited)[12] == 'e' && AsStr(ForumTopicClosed)[12] == 'c';
    assert [ForumTopicEdited, ForumTopicClosed][1..] == [ForumTopicClosed];
  }
  lemma RoundTripForumTopicReopened() ensures FromStr(AsStr(ForumTopicReopened)) == Some(ForumTopicReopened) {
    assert |AsStr(ForumTopicReopened)| == 20 && AsStr(ForumTopicReopened)[0] == 'f';
  }
  lemma RoundTripGeneralForumTopicHidden() ensures FromStr(AsStr(GeneralForumTopicHidden)) == Some(GeneralForumTopicHidden) {
    assert |AsStr(GeneralForumTopicHidden)| == 26 && AsStr(GeneralForumTopicHidden)[0] == 'g';
  }
  lemma RoundTripGeneralForumTopicUnhidden() ensures FromStr(AsStr(GeneralForumTopicUnhidden)) == Some(GeneralForumTopicUnhidden) {
    assert |AsStr(GeneralForumTopicUnhidden)| == 28 && AsStr(GeneralForumTopicUnhidden)[0] == 'g';
  }
  lemma RoundTripVideoChatScheduled() ensures FromStr(AsStr(VideoChatScheduled)) == Some(VideoChatScheduled) {
    assert |AsStr(VideoChatScheduled)| == 20 && AsStr(VideoChatScheduled)[0] == 'v';
  }
  lemma RoundTripVideoChatStarted() ensures FromStr(AsStr(VideoChatStarted)) == Some(VideoChatStarted) {
    assert |AsStr(VideoChatStarted)| == 18 && AsStr(VideoChatStarted)[0] == 'v';
  }
  lemma RoundTripVideoChatEnded() ensures FromStr(AsStr(VideoChatEnded)) == Some(VideoChatEnded) {
    assert |AsStr(VideoChatEnded)| == 16 && AsStr(VideoChatEnded)[0] == 'v';
  }
  lemma RoundTripVideoChatParticipantsInvited() ensures FromStr(AsStr(VideoChatParticipantsInvited)) == Some(VideoChatParticipantsInvited) {
    assert |AsStr(VideoChatParticipantsInvited)| == 31 && AsStr(VideoChatParticipantsInvited)[0] == 'v';
  }
  lemma RoundTripWebAppData() ensures FromStr(AsStr(WebAppData)) == Some(WebAppData) {
    assert |AsStr(WebAppData)| == 12 && AsStr(WebAppData)[0] == 'w';
  }
  lemma RoundTripUnknown() ensures FromStr(AsStr(Unknown)) == Some(Unknown) {
    assert |AsStr(Unknown)| == 7 && AsStr(Unknown)[0] == 'u';
  }

  /** `as_str` is injective. */
  lemma AsStrInjective(a: ContentType, b: ContentType)
    requires AsStr(a) == AsStr(b)
    ensures a == b
  {
    AsStrRoundTrip(a);
    AsStrRoundTrip(b);
  }

  /** `ContentType::all()`: the constant table, entry by entry. */
  function All(): (r: seq<ContentType>)
    ensures |r| == 49 && forall i | 0 <= i < 49 :: r[i] == Entry(i)
  {
    seq(49, i requires 0 <= i < 49 => Entry(i))
  }

  /** The entry at position `i` of the `all()` table. */
  function Entry(i: int): ContentType
    requires 0 <= i < 49
  {
    match i
    case 0 => Text
    case 1 => Animation
    case 2 => Audio
    case 3 => Document
    case 4 => Photo
    case 5 => Sticker
    case 6 => Story
    case 7 => Video
    case 8 => VideoNote
    case 9 => Voice
    case 10 => HasMediaSpoiler
    case 11 => Contact
    case 12 => Dice
    case 13 => Game
    case 14 => Poll
    case 15 => Venue
    case 16 => Location
    case 17 => NewChatMembers
    case 18 => LeftChatMember
    case 19 => NewChatTitle
    case 20 => NewChatPhoto
    case 21 => DeleteChatPhoto
    case 22 => GroupChatCreated
    case 23 => SupergroupChatCreated
    case 24 => ChannelChatCreated
    case 25 => MessageAutoDeleteTimerChanged
    case 26 => MigrateToChatId
    case 27 => MigrateFromChatId
    case 28 => PinnedMessage
    case 29 => Invoice
    case 30 => SuccessfulPayment
    case 31 => UserShared
    case 32 => ChatShared
    case 33 => ConnectedWebsite
    case 34 => WriteAccessAllowed
    case 35 => PassportData
    case 36 => ProximityAlertTriggered
    case 37 => ForumTopicCreated
    case 38 => ForumTopicEdited
    case 39 => ForumTopicClosed
    case 40 => ForumTopicReopened
    case 41 => GeneralForumTopicHidden
    case 42 => GeneralForumTopicUnhidden
    case 43 => VideoChatScheduled
    case 44 => VideoChatStarted
    case 45 => VideoChatEnded
    case 46 => VideoChatParticipantsInvited
    case 47 => WebAppData
    case _ => Unknown
  }

  /** The order in which `From<&Message>` tests the content fields: the
      declaration order of the variants, that is every entry of `all()`
      except the final `Unknown`. */
  function FieldOrder(): (r: seq<ContentType>)
    ensures |r| == 48 && forall i | 0 <= i < 48 :: r[i] == Entry(i)
  {
    All()[..48]
  }

  /** Whether the message field of that content type is set. The typed
      fields are read directly; any other field is set when its name is in
      the message's set of present fields. `Unknown` names no field. */
  predicate Present(m: Message, t: ContentType) {
    match t
    case Text => m.text.Some?
    case Animation => m.animation.Some?
    case Audio => m.audio.Some?
    case Document => m.document.Some?
    case Photo => m.photo.Some?
    case Sticker => m.sticker.Some?
    case Video => m.video.Some?
    case VideoNote => m.videoNote.Some?
    case Voice => m.voice.Some?
    case UserShared => m.userShared.Some?
    case Unknown => false
    case _ => AsStr(t) in m.otherFields
  }

  /** The first content type of `ts` whose field is set, else `Unknown`. */
  function FirstPresentType(m: Message, ts: seq<ContentType>): (r: ContentType)
    ensures r != Unknown ==> r in ts && Present(m, r)
    ensures r != Unknown ==> exists i :: 0 <= i < |ts| && ts[i] == r && forall j | 0 <= j < i :: !Present(m, ts[j])
    ensures r == Unknown && Unknown !in ts ==> forall t | t in ts :: !Present(m, t)
    ensures (forall t | t in ts :: !Present(m, t)) ==> r == Unknown
  {
    if |ts| == 0 then Unknown
    else if Present(m, ts[0]) then ts[0]
    else
      var r := FirstPresentType(m, ts[1..]);
      assert forall i | 1 <= i < |ts| :: ts[i] == ts[1..][i - 1];
      assert r != Unknown ==> exists i :: 0 <= i < |ts| && ts[i] == r && forall j | 0 <= j < i :: !Present(m, ts[j]) by {
        if r != Unknown {
          var i :| 0 <= i < |ts[1..]| && ts[1..][i] == r && forall j | 0 <= j < i :: !Present(m, ts[1..][j]);
          assert ts[i + 1] == r && forall j | 0 <= j < i + 1 :: !Present(m, ts[j]);
        }
      }
      assert forall t | t in ts[1..] :: t in ts;
      r
  }

  /** `From<&Message> for ContentType` (and `Message::content_type`). */
  function ContentTypeOf(m: Message): (r: ContentType)
    ensures r != Unknown ==> Present(m, r)
    ensures r != Unknown ==> exists i :: 0 <= i < 48 && FieldOrder()[i] == r && forall j | 0 <= j < i :: !Present(m, FieldOrder()[j])
    ensures r == Unknown <==> forall t | t in FieldOrder() :: !Present(m, t)
  {
    UnknownNotTested();
    FirstPresentType(m, FieldOrder())
  }

  /** The fields are tested in the declaration order of the variants, so
      every variant except `Unknown` is tested, each once. */
  lemma UnknownNotTested()
    ensures Unknown !in FieldOrder()
  {
    forall i | 0 <= i < 48
      ensures FieldOrder()[i] != Unknown
    {
      IndexOfEntry(i);
    }
  }

  /** The position of each variant in the declaration. */
  function Index(t: ContentType): nat {
    match t
    case Text => 0
    case Animation => 1
    case Audio => 2
    case Document => 3
    case Photo => 4
    case Sticker => 5
    case Story => 6
    case Video => 7
    case VideoNote => 8
    case Voice => 9
    case HasMediaSpoiler => 10
    case Contact => 11
    case Dice => 12
    case Game => 13
    case Poll => 14
    case Venue => 15
    case Location => 16
    case NewChatMembers => 17
    case LeftChatMember => 18
    case NewChatTitle => 19
    case NewChatPhoto => 20
    case DeleteChatPhoto => 21
    case GroupChatCreated => 22
    case SupergroupChatCreated => 23
    case ChannelChatCreated => 24
    case MessageAutoDeleteTimerChanged => 25
    case MigrateToChatId => 26
    case MigrateFromChatId => 27
    case PinnedMessage => 28
    case Invoice => 29
    case SuccessfulPayment => 30
    case UserShared => 31
    case ChatShared => 32
    case ConnectedWebsite => 33
    case WriteAccessAllowed => 34
    case PassportData => 35
    case ProximityAlertTriggered => 36
    case ForumTopicCreated => 37
    case ForumTopicEdited => 38
    case ForumTopicClosed => 39
    case ForumTopicReopened => 40
    case GeneralForumTopicHidden => 41
    case GeneralForumTopicUnhidden => 42
    case VideoChatScheduled => 43
    case VideoChatStarted => 44
    case VideoChatEnded => 45
    case VideoChatParticipantsInvited => 46
    case WebAppData => 47
    case Unknown => 48
  }

  /** The table entry at each position is the variant declared there ... */
  lemma IndexOfEntry(i: int)
    requires 0 <= i < 49
    ensures Index(Entry(i)) == i
  {
  }

  /** ... and every variant is the entry at its own position. */
  lemma EntryOfIndex(t: ContentType)
    ensures Index(t) < 49 && Entry(Index(t)) == t
  {
    match t
    case Text =>
    case Animation =>
    case Audio =>
    case Document =>
    case Photo =>
    case Sticker =>
    case Story =>
    case Video =>
    case VideoNote =>
    case Voice =>
    case HasMediaSpoiler =>
    case Contact =>
    case Dice =>
    case Game =>
    case Poll =>
    case Venue =>
    case Location =>
    case NewChatMembers =>
    case LeftChatMember =>
    case NewChatTitle =>
    case NewChatPhoto =>
    case DeleteChatPhoto =>
    case GroupChatCreated =>
    case SupergroupChatCreated =>
    case ChannelChatCreated =>
    case MessageAutoDeleteTimerChanged =>
    case MigrateToChatId =>
    case MigrateFromChatId =>
    case PinnedMessage =>
    case Invoice =>
    case SuccessfulPayment =>
    case UserShared =>
    case ChatShared =>
    case ConnectedWebsite =>
    case WriteAccessAllowed =>
    case PassportData =>
    case ProximityAlertTriggered =>
    case ForumTopicCreated =>
    case ForumTopicEdited =>
    case ForumTopicClosed =>
    case ForumTopicReopened =>
    case GeneralForumTopicHidden =>
    case GeneralForumTopicUnhidden =>
    case VideoChatScheduled =>
    case VideoChatStarted =>
    case VideoChatEnded =>
    case VideoChatParticipantsInvited =>
    case WebAppData =>
    case Unknown =>
  }

  /** `all()` lists every variant, each exactly once. */
  lemma AllDistinct()
    ensures forall i, j | 0 <= i < j < 49 :: All()[i] != All()[j]
  {
    forall i, j | 0 <= i < j < 49
      ensures All()[i] != All()[j]
    {
      IndexOfEntry(i);
      IndexOfEntry(j);
    }
  }

  lemma AllComplete(t: ContentType)
    ensures t in All()
  {
    EntryOfIndex(t);
    assert All()[Index(t)] == t;
  }

  /** A text message is classified as text whatever else it carries; a
      message with no content field is `Unknown`. */
  lemma TextFirst(m: Message)
    ensures m.text.Some? ==> ContentTypeOf(m) == Text
    ensures (m.text.None? && m.animation.None? && m.audio.None? && m.document.None? && m.photo.None?
             && m.sticker.None? && m.video.None? && m.videoNote.None? && m.voice.None? && m.userShared.None?
             && m.otherFields == {}) ==> ContentTypeOf(m) == Unknown
  {
    assert FieldOrder()[0] == Text;
  }
}
