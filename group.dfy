/**
 * A scanlation group record: its coding keys, the create/update initialiser
 * and the (deliberately partial) encoder used for create/update endpoints.
 */
module Groups {
  import opened Wrappers
  import opened Coding

  /** A localised string, language code to text. */
  datatype LocalizedString = LocalizedString(byLanguage: map<string, string>)

  /** A group as returned by the API. */
  datatype Group = Group(
    name: string,
    altNames: seq<LocalizedString>,
    locked: Option<bool>,
    website: Option<Url>,
    ircServer: Option<string>,
    ircChannel: Option<string>,
    discord: Option<string>,
    contactEmail: Option<string>,
    description: Option<string>,
    twitter: Option<Url>,
    mangaUpdates: Option<Url>,
    focusedLanguages: seq<string>,
    official: Option<bool>,
    verified: Option<bool>,
    inactive: Option<bool>,
    publishDelay: Option<string>,
    createdDate: Date,
    updatedDate: Option<Date>,
    version: Int64)

  /** One case per coded property of a group. */
  datatype CodingKey =
    | NameKey | AltNamesKey | LockedKey | WebsiteKey | IrcServerKey | IrcChannelKey | DiscordKey
    | ContactEmailKey | DescriptionKey | TwitterKey | MangaUpdatesKey | FocusedLanguagesKey
    | OfficialKey | VerifiedKey | InactiveKey | PublishDelayKey | CreatedDateKey | UpdatedDateKey | VersionKey

  /** The name of the property a key codes. */
  function PropertyName(k: CodingKey): string {
    match k
    case NameKey => "name"
    case AltNamesKey => "altNames"
    case LockedKey => "locked"
    case WebsiteKey => "website"
    case IrcServerKey => "ircServer"
    case IrcChannelKey => "ircChannel"
    case DiscordKey => "discord"
    case ContactEmailKey => "contactEmail"
    case DescriptionKey => "description"
    case TwitterKey => "twitter"
    case MangaUpdatesKey => "mangaUpdates"
    case FocusedLanguagesKey => "focusedLanguages"
    case OfficialKey => "official"
    case VerifiedKey => "verified"
    case InactiveKey => "inactive"
    case PublishDelayKey => "publishDelay"
    case CreatedDateKey => "createdDate"
    case UpdatedDateKey => "updatedDate"
    case VersionKey => "version"
  }

  /** The JSON key of a property: the two dates are renamed, every other key is the property's name. */
  function KeyName(k: CodingKey): (s: string)
    ensures k == CreatedDateKey ==> s == "createdAt"
    ensures k == UpdatedDateKey ==> s == "updatedAt"
    ensures k != CreatedDateKey && k != UpdatedDateKey ==> s == PropertyName(k)
  {
    match k
    case CreatedDateKey => "createdAt"
    case UpdatedDateKey => "updatedAt"
    case _ => PropertyName(k)
  }

  /** No two properties share a JSON key. */
  lemma KeyNamesDistinct(k1: CodingKey, k2: CodingKey)
    requires k1 != k2
    ensures KeyName(k1) != KeyName(k2)
  {
  }

  /** Every optional profile field is nil and both lists are empty. */
  predicate ProfileEmpty(g: Group) {
    && g.altNames == [] && g.focusedLanguages == []
    && g.locked.None? && g.website.None? && g.ircServer.None? && g.ircChannel.None?
    && g.discord.None? && g.contactEmail.None? && g.description.None? && g.twitter.None?
    && g.mangaUpdates.None? && g.official.None? && g.verified.None? && g.inactive.None?
    && g.publishDelay.None?
  }

  /**
   * `init(name:leaderId:memberIds:)`: keeps the name, leaves the profile empty,
   * sets version 1 and no update date. `now` stands for the wall-clock date it
   * reads. The leader and member ids are accepted and not stored.
   */
  function Create(name: string, leaderId: string, memberIds: seq<string>, now: Date): (g: Group)
    ensures g.name == name && ProfileEmpty(g)
    ensures g.createdDate == now && g.updatedDate == None && g.version == 1
  {
    Group(name, [], None, None, None, None, None, None, None, None, None, [], None, None, None, None,
          now, None, 1)
  }

  /** The leader and member ids given to the initialiser leave no trace in the group. */
  lemma CreateIgnoresMembers(name: string, now: Date,
                             leader1: string, members1: seq<string>, leader2: string, members2: seq<string>)
    ensures Create(name, leader1, members1, now) == Create(name, leader2, members2, now)
  {
  }

  /** `encode(to:)`: only the name and the version are written. */
  function Encode(g: Group): (r: map<string, Json>)
    ensures r.Keys == {KeyName(NameKey), KeyName(VersionKey)}
    ensures forall k :: k != NameKey && k != VersionKey ==> KeyName(k) !in r
    ensures r[KeyName(NameKey)] == Str(g.name) && r[KeyName(VersionKey)] == Number(g.version)
  {
    map[KeyName(NameKey) := Str(g.name), KeyName(VersionKey) := Number(g.version)]
  }

  /** Two groups encode alike exactly when their names and versions agree: every other field is dropped. */
  lemma EncodeKeepsOnlyNameAndVersion(g1: Group, g2: Group)
    ensures Encode(g1) == Encode(g2) <==> g1.name == g2.name && g1.version == g2.version
  {
  }

  /** The body sent for a group built by the initialiser: its name and version 1, nothing else. */
  lemma CreatedGroupBody(name: string, leaderId: string, memberIds: seq<string>, now: Date)
    ensures Encode(Create(name, leaderId, memberIds, now)) == map["name" := Str(name), "version" := Number(1)]
  {
  }
}
