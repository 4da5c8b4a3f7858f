// The Telegram user record of the current library generation
// (telers/src/types/user.rs): a plain value with a consuming builder, where
// every setter is a struct update of one field.
module TelersUser {
  import opened Wrappers

  datatype User = User(
    id: int,
    isBot: bool,
    firstName: string,
    lastName: Option<string>,
    username: Option<string>,
    languageCode: Option<string>,
    isPremium: Option<bool>,
    addedToAttachmentMenu: Option<bool>,
    canJoinGroups: Option<bool>,
    canReadAllGroupMessages: Option<bool>,
    supportsInlineQueries: Option<bool>)

  /** `full_name`: "first last" when there is a last name, else the first name. */
  function FullName(u: User): (r: string)
    ensures |r| >= |u.firstName| && r[..|u.firstName|] == u.firstName
    ensures u.lastName.None? <==> |r| == |u.firstName|
    ensures u.lastName.Some? ==> r[|u.firstName|] == ' ' && r[|u.firstName| + 1..] == u.lastName.value
  {
    match u.lastName
    case Some(last) => u.firstName + " " + last
    case None => u.firstName
  }

  /** `User::new`: the three required fields, every optional field empty. */
  function New(id: int, isBot: bool, firstName: string): (u: User)
    ensures u.id == id && u.isBot == isBot && u.firstName == firstName
    ensures u.lastName.None? && u.username.None? && u.languageCode.None?
    ensures u.isPremium.None? && u.addedToAttachmentMenu.None? && u.canJoinGroups.None?
    ensures u.canReadAllGroupMessages.None? && u.supportsInlineQueries.None?
  {
    User(id, isBot, firstName, None, None, None, None, None, None, None, None)
  }

  // Each setter stores its value and leaves every other field as it was:
  // restoring the old value of that one field gives back the input.

  function SetId(u: User, val: int): (r: User)
    ensures r.id == val && r.(id := u.id) == u
  { u.(id := val) }

  function SetIsBot(u: User, val: bool): (r: User)
    ensures r.isBot == val && r.(isBot := u.isBot) == u
  { u.(isBot := val) }

  function SetFirstName(u: User, val: string): (r: User)
    ensures r.firstName == val && r.(firstName := u.firstName) == u
  { u.(firstName := val) }

  function SetLastName(u: User, val: string): (r: User)
    ensures r.lastName == Some(val) && r.(lastName := u.lastName) == u
  { u.(lastName := Some(val)) }

  function SetUsername(u: User, val: string): (r: User)
    ensures r.username == Some(val) && r.(username := u.username) == u
  { u.(username := Some(val)) }

  function SetLanguageCode(u: User, val: string): (r: User)
    ensures r.languageCode == Some(val) && r.(languageCode := u.languageCode) == u
  { u.(languageCode := Some(val)) }

  function SetIsPremium(u: User, val: bool): (r: User)
    ensures r.isPremium == Some(val) && r.(isPremium := u.isPremium) == u
  { u.(isPremium := Some(val)) }

  function SetAddedToAttachmentMenu(u: User, val: bool): (r: User)
    ensures r.addedToAttachmentMenu == Some(val) && r.(addedToAttachmentMenu := u.addedToAttachmentMenu) == u
  { u.(addedToAttachmentMenu := Some(val)) }

  function SetCanJoinGroups(u: User, val: bool): (r: User)
    ensures r.canJoinGroups == Some(val) && r.(canJoinGroups := u.canJoinGroups) == u
  { u.(canJoinGroups := Some(val)) }

  function SetCanReadAllGroupMessages(u: User, val: bool): (r: User)
    ensures r.canReadAllGroupMessages == Some(val) && r.(canReadAllGroupMessages := u.canReadAllGroupMessages) == u
  { u.(canReadAllGroupMessages := Some(val)) }

  function SetSupportsInlineQueries(u: User, val: bool): (r: User)
    ensures r.supportsInlineQueries == Some(val) && r.(supportsInlineQueries := u.supportsInlineQueries) == u
  { u.(supportsInlineQueries := Some(val)) }

  // The `*_option` setters store the option exactly as given.

  function SetLastNameOption(u: User, val: Option<string>): (r: User)
    ensures r.lastName == val && r.(lastName := u.lastName) == u
  { u.(lastName := val) }

  function SetUsernameOption(u: User, val: Option<string>): (r: User)
    ensures r.username == val && r.(username := u.username) == u
  { u.(username := val) }

  function SetLanguageCodeOption(u: User, val: Option<string>): (r: User)
    ensures r.languageCode == val && r.(languageCode := u.languageCode) == u
  { u.(languageCode := val) }

  function SetIsPremiumOption(u: User, val: Option<bool>): (r: User)
    ensures r.isPremium == val && r.(isPremium := u.isPremium) == u
  { u.(isPremium := val) }

  function SetAddedToAttachmentMenuOption(u: User, val: Option<bool>): (r: User)
    ensures r.addedToAttachmentMenu == val && r.(addedToAttachmentMenu := u.addedToAttachmentMenu) == u
  { u.(addedToAttachmentMenu := val) }

  function SetCanJoinGroupsOption(u: User, val: Option<bool>): (r: User)
    ensures r.canJoinGroups == val && r.(canJoinGroups := u.canJoinGroups) == u
  { u.(canJoinGroups := val) }

  function SetCanReadAllGroupMessagesOption(u: User, val: Option<bool>): (r: User)
    ensures r.canReadAllGroupMessages == val && r.(canReadAllGroupMessages := u.canReadAllGroupMessages) == u
  { u.(canReadAllGroupMessages := val) }

  function SetSupportsInlineQueriesOption(u: User, val: Option<bool>): (r: User)
    ensures r.supportsInlineQueries == val && r.(supportsInlineQueries := u.supportsInlineQueries) == u
  { u.(supportsInlineQueries := val) }

  /** A user built with `new` and the builder's setters is the user whose
      fields were given, and its full name joins the two names with a space. */
  lemma BuilderBuilds(u: User)
    ensures SetSupportsInlineQueriesOption(SetCanReadAllGroupMessagesOption(SetCanJoinGroupsOption(
              SetAddedToAttachmentMenuOption(SetIsPremiumOption(SetLanguageCodeOption(SetUsernameOption(
                SetLastNameOption(New(u.id, u.isBot, u.firstName), u.lastName), u.username), u.languageCode),
                u.isPremium), u.addedToAttachmentMenu), u.canJoinGroups), u.canReadAllGroupMessages),
              u.supportsInlineQueries) == u
    ensures FullName(New(u.id, u.isBot, u.firstName)) == u.firstName
  {
  }

  /** A plain setter is its `*_option` setter given Some, and the later of
      two writes to one field wins. */
  lemma SetterLaws(u: User, a: string, b: string)
    ensures SetLastName(u, a) == SetLastNameOption(u, Some(a))
    ensures SetUsername(u, a) == SetUsernameOption(u, Some(a))
    ensures SetLanguageCode(u, a) == SetLanguageCodeOption(u, Some(a))
    ensures SetLastName(SetLastName(u, a), b) == SetLastName(u, b)
    ensures FullName(SetLastName(SetFirstName(u, a), b)) == a + " " + b
    ensures FullName(SetLastNameOption(u, None)) == u.firstName
  {
  }
}
