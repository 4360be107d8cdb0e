/**
 * The account-details card: the provider label, the time fallbacks and the
 * avatar placeholder, computed from the user record. Locale date formatting
 * is a parameter.
 */
module AuthDetails {
  import opened Wrappers
  import opened Text

  datatype Metadata = Metadata(creationTime: Option<string>, lastSignInTime: Option<string>)

  /** The fields of the Firebase user record the card reads; `providerIds` lists `providerData`'s ids in order. */
  datatype User = User(
    uid: string,
    displayName: Option<string>,
    email: Option<string>,
    emailVerified: bool,
    photoUrl: Option<string>,
    providerIds: seq<string>,
    metadata: Option<Metadata>)

  const NotAvailable := "Not available"

  /** `getAuthProvider`: the label of the first provider. */
  function AuthProvider(providerIds: seq<string>): (shown: string)
    ensures providerIds == [] ==> shown == "Unknown"
    ensures providerIds != [] && providerIds[0] == "google.com" ==> shown == "Google"
    ensures providerIds != [] && providerIds[0] == "password" ==> shown == "Email/Password"
    ensures providerIds != [] && providerIds[0] !in {"google.com", "password"} ==> shown == providerIds[0]
  {
    if |providerIds| > 0 then
      var id := providerIds[0];
      if id == "google.com" then "Google"
      else if id == "password" then "Email/Password"
      else id
    else "Unknown"
  }

  /** Only the first provider decides the label. */
  lemma ProviderLabelUsesFirst(first: string, more: seq<string>, others: seq<string>)
    ensures AuthProvider([first] + more) == AuthProvider([first] + others)
  {
  }

  /** A string is truthy in JavaScript when it is present and non-empty. */
  predicate Truthy(s: Option<string>) {
    s.Some? && s.value != ""
  }

  /** `formatCreationTime` / `formatLastSignInTime`: the locale rendering of a present time, else "Not available". */
  function TimeLabel(time: Option<string>, toLocale: string -> string): (shown: string)
    ensures !Truthy(time) ==> shown == NotAvailable
    ensures Truthy(time) ==> shown == toLocale(time.value)
  {
    if Truthy(time) then toLocale(time.value) else NotAvailable
  }

  function CreationTime(metadata: Option<Metadata>): Option<string> {
    if metadata.Some? then metadata.value.creationTime else None
  }

  function LastSignInTime(metadata: Option<Metadata>): Option<string> {
    if metadata.Some? then metadata.value.lastSignInTime else None
  }

  /** The avatar: the photo when there is one, otherwise a one-letter placeholder. */
  datatype Avatar = Image(src: string, alt: string) | Placeholder(letter: string)

  /** The placeholder letter: the first character of a non-empty name, upper-cased, else "U". */
  function Initial(displayName: Option<string>): (letter: string)
    ensures |letter| == 1
    ensures Truthy(displayName) ==> letter == [UpperChar(displayName.value[0])]
    ensures !Truthy(displayName) ==> letter == "U"
  {
    if Truthy(displayName) then [UpperChar(displayName.value[0])] else "U"
  }

  function AvatarOf(u: User): (a: Avatar)
    ensures a.Placeholder? <==> !Truthy(u.photoUrl)
    ensures a.Image? ==> a.src == u.photoUrl.value && a.alt == if Truthy(u.displayName) then u.displayName.value else "User"
    ensures a.Placeholder? ==> a.letter == Initial(u.displayName)
  {
    if Truthy(u.photoUrl) then Image(u.photoUrl.value, if Truthy(u.displayName) then u.displayName.value else "User")
    else Placeholder(Initial(u.displayName))
  }

  /** What the card shows; `name` is None when the name row is hidden. */
  datatype Card = Card(
    avatar: Avatar,
    name: Option<string>,
    email: string,
    verifiedBadge: bool,
    provider: string,
    created: string,
    lastSignIn: string,
    uid: string)

  /** The card for a user, or nothing when there is no user. */
  function Render(user: Option<User>, toLocale: string -> string): (card: Option<Card>)
    ensures card.None? <==> user.None?
    ensures card.Some? ==>
              && card.value.provider == AuthProvider(user.value.providerIds)
              && card.value.created == TimeLabel(CreationTime(user.value.metadata), toLocale)
              && card.value.lastSignIn == TimeLabel(LastSignInTime(user.value.metadata), toLocale)
              && card.value.email == (if Truthy(user.value.email) then user.value.email.value else NotAvailable)
              && card.value.avatar == AvatarOf(user.value)
              && (card.value.name.Some? <==> Truthy(user.value.displayName))
              && (card.value.name.Some? ==> card.value.name == user.value.displayName)
              && card.value.verifiedBadge == user.value.emailVerified
              && card.value.uid == user.value.uid
  {
    match user
    case None => None
    case Some(u) =>
      Some(Card(
        AvatarOf(u),
        if Truthy(u.displayName) then u.displayName else None,
        if Truthy(u.email) then u.email.value else NotAvailable,
        u.emailVerified,
        AuthProvider(u.providerIds),
        TimeLabel(CreationTime(u.metadata), toLocale),
        TimeLabel(LastSignInTime(u.metadata), toLocale),
        u.uid))
  }

  /** A user record without metadata shows "Not available" for both times, whatever the locale. */
  lemma NoMetadataNoTimes(u: User, toLocale: string -> string)
    requires u.metadata.None?
    ensures var c := Render(Some(u), toLocale).value;
            c.created == NotAvailable && c.lastSignIn == NotAvailable
  {
  }
}
