/**
 * The remote Misskey service as the account handlers see it: the records it
 * exchanges, the calls the handlers issue, and the tagged errors it reports.
 * The service itself is not modelled; a `Remote` value stands for any
 * behaviour it may have.
 */
module Misskey {
  import opened Wrappers

  /** One (name, value) entry of a profile. */
  datatype AccountField = AccountField(name: string, value: string)

  /** A Mastodon-shaped account as the remote adapter returns it. */
  datatype Account = Account(
    id: string,
    username: string,
    acct: string,
    displayName: string,
    note: string,
    avatar: string,
    avatarStatic: string,
    header: string,
    headerStatic: string,
    locked: bool,
    bot: bool,
    discoverable: bool,
    fields: seq<AccountField>)

  /** A status; the handlers never look inside one. */
  datatype Status = Status(id: string, content: string)

  /** The state between the caller and one target account. */
  datatype Relationship = Relationship(
    id: string,
    following: bool,
    followedBy: bool,
    requested: bool,
    blocking: bool,
    muting: bool)

  /**
   * The profile changes sent by update_credentials. An absent option means
   * "leave unchanged", never "clear".
   */
  datatype CredentialsUpdate = CredentialsUpdate(
    displayName: Option<string>,
    note: Option<string>,
    locked: Option<bool>,
    bot: Option<bool>,
    discoverable: Option<bool>,
    sourcePrivacy: Option<string>,
    sourceSensitive: Option<bool>,
    sourceLanguage: Option<string>,
    accountFields: seq<AccountField>)

  /** A Go slice, which may be nil as well as empty. */
  datatype GoSlice<T> = Nil | Elems(elems: seq<T>)

  /** The sentinel errors the handlers tell apart, and every other failure. */
  datatype ErrorKind = NotFound | AcctIsInvalid | Other

  /** A failed remote call: its kind and the text of the error. */
  datatype RemoteError = RemoteError(kind: ErrorKind, message: string)

  /** Every remote call an account handler can issue, with its arguments. */
  datatype Call =
    | VerifyCredentials(server: string, token: string)
    | AccountsLookup(server: string, acct: string)
    | AccountsGet(server: string, token: string, id: string)
    | AccountsStatuses(server: string, id: string, limit: int,
                       pinnedOnly: bool, onlyMedia: bool, onlyPublic: bool,
                       excludeReplies: bool, excludeReblogs: bool,
                       maxId: string, minId: string)
    | UpdateCredentials(server: string, token: string, update: CredentialsUpdate)
    | AccountFollowRequests(server: string, token: string, limit: int, sinceId: string, maxId: string)
    | AccountFollowers(server: string, token: string, id: string, limit: int,
                       sinceId: string, minId: string, maxId: string)
    | AccountFollowing(server: string, token: string, id: string, limit: int,
                       sinceId: string, minId: string, maxId: string)
    | AccountRelationships(server: string, token: string, ids: seq<string>)
    | AccountFollow(server: string, token: string, id: string)
    | AccountUnfollow(server: string, token: string, id: string)

  /**
   * What the remote service answers to each call, grouped by the type of the
   * answer. Any choice of these functions is a possible service.
   */
  datatype Remote = Remote(
    account: Call -> Result<Account, RemoteError>,
    accounts: Call -> Result<GoSlice<Account>, RemoteError>,
    statuses: Call -> Result<GoSlice<Status>, RemoteError>,
    relationships: Call -> Result<GoSlice<Relationship>, RemoteError>,
    mutation: Call -> Option<RemoteError>)
}
