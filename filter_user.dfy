// The user filter (src/filters/user.rs): an update passes when its user's
// username, id, first name, last name or language code is one of those the
// filter lists. The five checks are joined by `or`, and a field the user
// does not have never matches.
module UserFilter {
  import opened Wrappers
  import SrcTypes
  import SrcUpdate

  datatype User = User(
    usernames: seq<string>,
    firstNames: seq<string>,
    lastNames: seq<string>,
    languageCodes: seq<string>,
    ids: seq<int>)

  /** `validate_username`. */
  function ValidateUsername(f: User, username: string): (b: bool)
    ensures b <==> exists i | 0 <= i < |f.usernames| :: f.usernames[i] == username
  {
    username in f.usernames
  }

  /** `validate_first_name`. */
  function ValidateFirstName(f: User, firstName: string): (b: bool)
    ensures b <==> exists i | 0 <= i < |f.firstNames| :: f.firstNames[i] == firstName
  {
    firstName in f.firstNames
  }

  /** `validate_last_name`. */
  function ValidateLastName(f: User, lastName: string): (b: bool)
    ensures b <==> exists i | 0 <= i < |f.lastNames| :: f.lastNames[i] == lastName
  {
    lastName in f.lastNames
  }

  /** `validate_language_code`. */
  function ValidateLanguageCode(f: User, languageCode: string): (b: bool)
    ensures b <==> exists i | 0 <= i < |f.languageCodes| :: f.languageCodes[i] == languageCode
  {
    languageCode in f.languageCodes
  }

  /** `validate_id`. */
  function ValidateId(f: User, id: int): (b: bool)
    ensures b <==> exists i | 0 <= i < |f.ids| :: f.ids[i] == id
  {
    id in f.ids
  }

  /** An optional field checked by `validator`: absent never matches. */
  function OptionalMatches(field: Option<string>, validator: string -> bool): (b: bool)
    ensures b <==> field.Some? && validator(field.value)
  {
    match field
    case None => false
    case Some(v) => validator(v)
  }

  /** `validate`: the username, the id, the first name, the last name and the
      language code, in this order, joined by `or`. */
  function Validate(f: User, user: SrcTypes.User): (b: bool)
    ensures b <==> ((user.username.Some? && user.username.value in f.usernames)
                    || user.id in f.ids
                    || user.firstName in f.firstNames
                    || (user.lastName.Some? && user.lastName.value in f.lastNames)
                    || (user.languageCode.Some? && user.languageCode.value in f.languageCodes))
  {
    OptionalMatches(user.username, (n: string) => ValidateUsername(f, n))
    || ValidateId(f, user.id)
    || ValidateFirstName(f, user.firstName)
    || OptionalMatches(user.lastName, (n: string) => ValidateLastName(f, n))
    || OptionalMatches(user.languageCode, (c: string) => ValidateLanguageCode(f, c))
  }

  /** `Filter::check`: the update's user must exist and pass. */
  function Check(f: User, u: SrcTypes.Update): (b: bool)
    ensures SrcUpdate.UserOf(u).None? ==> !b
    ensures SrcUpdate.UserOf(u).Some? ==> (b <==> Validate(f, SrcUpdate.UserOf(u).value))
  {
    match SrcUpdate.UserOf(u)
    case None => false
    case Some(user) => Validate(f, user)
  }

  /** A filter listing only usernames lets through exactly the users whose
      username is listed: a user without a username never passes it. */
  lemma UsernamesOnly(names: seq<string>, user: SrcTypes.User)
    ensures Validate(User(names, [], [], [], []), user) <==> user.username.Some? && user.username.value in names
  {
  }

  /** A user with none of the optional fields is told by its id and first
      name alone. */
  lemma AbsentFieldsNeverMatch(f: User, user: SrcTypes.User)
    requires user.username.None? && user.lastName.None? && user.languageCode.None?
    ensures Validate(f, user) <==> user.id in f.ids || user.firstName in f.firstNames
  {
  }

  // ---------------------------------------------------------------------
  // The builder

  datatype UserBuilder = UserBuilder(
    usernames: seq<string>,
    firstNames: seq<string>,
    lastNames: seq<string>,
    languageCodes: seq<string>,
    ids: seq<int>)

  /** `User::builder`: every list empty. */
  function Builder(): (b: UserBuilder)
    ensures b.usernames == [] && b.firstNames == [] && b.lastNames == [] && b.languageCodes == [] && b.ids == []
  {
    UserBuilder([], [], [], [], [])
  }

  /** `username` and `usernames`: appended after those given. */
  function AddUsernames(b: UserBuilder, val: seq<string>): (r: UserBuilder)
    ensures |r.usernames| == |b.usernames| + |val| && r.usernames[..|b.usernames|] == b.usernames && r.usernames[|b.usernames|..] == val
    ensures r.firstNames == b.firstNames && r.lastNames == b.lastNames && r.languageCodes == b.languageCodes && r.ids == b.ids
  {
    b.(usernames := b.usernames + val)
  }

  /** `first_name` and `first_names`. */
  function AddFirstNames(b: UserBuilder, val: seq<string>): (r: UserBuilder)
    ensures |r.firstNames| == |b.firstNames| + |val| && r.firstNames[..|b.firstNames|] == b.firstNames && r.firstNames[|b.firstNames|..] == val
    ensures r.usernames == b.usernames && r.lastNames == b.lastNames && r.languageCodes == b.languageCodes && r.ids == b.ids
  {
    b.(firstNames := b.firstNames + val)
  }

  /** `last_name` and `last_names`. */
  function AddLastNames(b: UserBuilder, val: seq<string>): (r: UserBuilder)
    ensures |r.lastNames| == |b.lastNames| + |val| && r.lastNames[..|b.lastNames|] == b.lastNames && r.lastNames[|b.lastNames|..] == val
    ensures r.usernames == b.usernames && r.firstNames == b.firstNames && r.languageCodes == b.languageCodes && r.ids == b.ids
  {
    b.(lastNames := b.lastNames + val)
  }

  /** `language_code` and `language_codes`. */
  function AddLanguageCodes(b: UserBuilder, val: seq<string>): (r: UserBuilder)
    ensures |r.languageCodes| == |b.languageCodes| + |val| && r.languageCodes[..|b.languageCodes|] == b.languageCodes && r.languageCodes[|b.languageCodes|..] == val
    ensures r.usernames == b.usernames && r.firstNames == b.firstNames && r.lastNames == b.lastNames && r.ids == b.ids
  {
    b.(languageCodes := b.languageCodes + val)
  }

  /** `id` and `ids`. */
  function AddIds(b: UserBuilder, val: seq<int>): (r: UserBuilder)
    ensures |r.ids| == |b.ids| + |val| && r.ids[..|b.ids|] == b.ids && r.ids[|b.ids|..] == val
    ensures r.usernames == b.usernames && r.firstNames == b.firstNames && r.lastNames == b.lastNames && r.languageCodes == b.languageCodes
  {
    b.(ids := b.ids + val)
  }

  /** `build`: `User::new` over the lists as given. */
  function Build(b: UserBuilder): (f: User)
    ensures f.usernames == b.usernames && f.firstNames == b.firstNames && f.lastNames == b.lastNames
    ensures f.languageCodes == b.languageCodes && f.ids == b.ids
  {
    User(b.usernames, b.firstNames, b.lastNames, b.languageCodes, b.ids)
  }

  /** Every builder call only widens the filter: a user that passed still
      passes, and a user given by id to `id` now passes. */
  lemma BuilderCallsWiden(b: UserBuilder, user: SrcTypes.User, names: seq<string>, ids: seq<int>)
    ensures Validate(Build(b), user) ==>
      Validate(Build(AddUsernames(b, names)), user) && Validate(Build(AddFirstNames(b, names)), user)
      && Validate(Build(AddLastNames(b, names)), user) && Validate(Build(AddLanguageCodes(b, names)), user)
      && Validate(Build(AddIds(b, ids)), user)
    ensures Validate(Build(AddIds(b, [user.id])), user)
    ensures Validate(Build(AddFirstNames(b, [user.firstName])), user)
  {
    assert AddIds(b, [user.id]).ids[|b.ids|] == user.id;
    assert AddFirstNames(b, [user.firstName]).firstNames[|b.firstNames|] == user.firstName;
    assert forall i | 0 <= i < |b.usernames| :: AddUsernames(b, names).usernames[i] == b.usernames[i];
    assert forall i | 0 <= i < |b.firstNames| :: AddFirstNames(b, names).firstNames[i] == b.firstNames[i];
    assert forall i | 0 <= i < |b.lastNames| :: AddLastNames(b, names).lastNames[i] == b.lastNames[i];
    assert forall i | 0 <= i < |b.languageCodes| :: AddLanguageCodes(b, names).languageCodes[i] == b.languageCodes[i];
    assert forall i | 0 <= i < |b.ids| :: AddIds(b, ids).ids[i] == b.ids[i];
  }
}
