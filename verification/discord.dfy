/**
 * The chat platform's objects as the exporter receives them. Network
 * look-ups the exporter performs are given as data: a guild's member
 * directory stands for `get_member`/`fetch_member`, a reaction's user
 * list for `reaction.users()`, and URLs come already built.
 */
module Discord {
  import opened Wrappers

  /** A UTC date and time broken down into its fields. */
  datatype DateTime = DateTime(
    year: nat, month: nat, day: nat,
    hour: nat, minute: nat, second: nat, microsecond: nat)

  /** The ranges a Python `datetime` keeps its fields in. */
  predicate ValidDateTime(t: DateTime) {
    && 1 <= t.year <= 9999 && 1 <= t.month <= 12 && 1 <= t.day <= 31
    && t.hour < 24 && t.minute < 60 && t.second < 60 && t.microsecond < 1000000
  }

  datatype DiscordRole = DiscordRole(id: nat, name: string, color: nat, position: int)

  /** A bare `discord.User`, or a `discord.Member` with its role list (@everyone first). */
  datatype PersonKind = BareUser | GuildMember(roles: seq<DiscordRole>)

  datatype Person = Person(
    id: nat,
    name: string,
    discriminator: string,
    displayName: string,
    color: nat,
    bot: bool,
    avatarUrl: string,
    kind: PersonKind)

  /**
   * What the guild answers when asked for a member by id: `Some(member)`,
   * or `None` for NotFound (an id missing from the map is NotFound too).
   */
  type Directory = map<nat, Option<Person>>

  /** The platform answers a member look-up with a member of that id. */
  predicate DirectoryOk(dir: Directory) {
    forall k :: k in dir && dir[k].Some? ==> dir[k].value.id == k && dir[k].value.kind.GuildMember?
  }

  datatype SourceGuild = SourceGuild(id: nat, name: string, iconUrl: Option<string>, directory: Directory)

  /** Which Python class the channel object is an instance of. */
  datatype ChannelClass = TextClass | VoiceClass | ThreadClass | OtherClass

  datatype Category = Category(id: nat, name: string)

  /** The bot's permissions in a channel, as far as the exporter asks. */
  datatype Permissions = Permissions(readMessageHistory: bool, readMessages: bool, connect: bool)

  datatype SourceChannel = SourceChannel(
    id: nat,
    name: string,
    typeCode: int,
    cls: ChannelClass,
    parent: Option<Category>,
    category: Option<Category>,
    topic: Option<string>,
    perms: Permissions,
    guild: SourceGuild)

  datatype SourceEmbedAuthor = SourceEmbedAuthor(
    name: Option<string>, url: Option<string>, iconUrl: Option<string>, proxyIconUrl: Option<string>)

  datatype SourceMedia = SourceMedia(
    url: Option<string>, proxyUrl: Option<string>, width: Option<int>, height: Option<int>)

  datatype SourceFooter = SourceFooter(text: Option<string>, iconUrl: Option<string>, proxyIconUrl: Option<string>)

  datatype SourceField = SourceField(name: string, value: string, inline: bool)

  /** An embed; `None` stands for an attribute the embed does not carry. */
  datatype SourceEmbed = SourceEmbed(
    title: Option<string>,
    url: Option<string>,
    timestamp: Option<DateTime>,
    description: Option<string>,
    color: Option<nat>,
    author: Option<SourceEmbedAuthor>,
    thumbnail: Option<SourceMedia>,
    video: Option<SourceMedia>,
    footer: Option<SourceFooter>,
    image: Option<SourceMedia>,
    fields: seq<SourceField>)

  datatype Emoji =
    | CustomEmoji(id: nat, name: string, animated: bool, url: string)
    | UnicodeEmoji(glyph: string)

  /** A reaction with the users `reaction.users()` yields, in that order. */
  datatype SourceReaction = SourceReaction(emoji: Emoji, count: nat, users: seq<Person>)

  datatype SourceAttachment = SourceAttachment(id: nat, url: string, filename: string, size: nat)

  datatype SourceSticker = SourceSticker(id: nat, name: string, formatCode: int, url: string)

  datatype SourceReference = SourceReference(messageId: Option<nat>, channelId: Option<nat>, guildId: Option<nat>)

  datatype SourceMessage = SourceMessage(
    id: nat,
    channelId: nat,
    typeCode: int,
    createdAt: DateTime,
    editedAt: Option<DateTime>,
    pinned: bool,
    content: string,
    author: Person,
    attachments: seq<SourceAttachment>,
    embeds: seq<SourceEmbed>,
    stickers: seq<SourceSticker>,
    reactions: seq<SourceReaction>,
    mentions: seq<Person>,
    reference: Option<SourceReference>)
}
