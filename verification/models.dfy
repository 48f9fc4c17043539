/**
 * The records the exporter writes (the chat-analytics "DiscordChatExporter"
 * layout), the lookup tables for platform type codes, and each record's
 * `model_dump()` as a `Json.Value`. A field declared `= MISSING` is a
 * `MaybeMissing`: `Absent` until the exporter assigns it.
 */
module Models {
  import opened Wrappers
  import Json

  /** A field whose default is the `MISSING` sentinel. */
  datatype MaybeMissing<+T> = Absent | Present(value: T)

  // ----- lookup tables -----

  const ChannelTypes: map<int, string> := map[
    0 := "GuildTextChat", 1 := "DirectTextChat", 2 := "GuildVoiceChat",
    3 := "DirectGroupTextChat", 4 := "GuildCategory", 5 := "GuildNews",
    10 := "GuildNewsThread", 11 := "GuildPublicThread", 12 := "GuildPrivateThread",
    13 := "GuildStageVoice", 14 := "GuildDirectory", 15 := "GuildForum"]

  const MessageTypes: map<int, string> := map[
    0 := "Default", 1 := "RecipientAdd", 2 := "RecipientRemove", 3 := "Call",
    4 := "ChannelNameChange", 5 := "ChannelIconChange", 6 := "ChannelPinnedMessage",
    7 := "GuildMemberJoin", 18 := "ThreadCreated", 19 := "Reply"]

  const StickerTypes: map<int, string> := map[1 := "Png", 2 := "Apng", 3 := "Lottie", 4 := "Gif"]

  /** `CHANNEL_TYPES.get(code)`. */
  function ChannelTypeName(code: int): (r: Option<string>)
    ensures r.Some? <==> (0 <= code <= 5 || 10 <= code <= 15)
  {
    if code in ChannelTypes then Some(ChannelTypes[code]) else None
  }

  /** `MESSAGE_TYPES.get(code, 'Default')`. */
  function MessageTypeName(code: int): (r: string)
    ensures r == "Default" <==> !(1 <= code <= 7 || code == 18 || code == 19)
    ensures code == 19 ==> r == "Reply"
  {
    if code in MessageTypes then MessageTypes[code] else "Default"
  }

  /** `STICKER_TYPES.get(code)`. */
  function StickerFormatName(code: int): (r: Option<string>)
    ensures r.Some? <==> 1 <= code <= 4
  {
    if code in StickerTypes then Some(StickerTypes[code]) else None
  }

  // ----- records -----

  datatype Guild = Guild(id: string, name: string, iconUrl: Option<string>)

  datatype Channel = Channel(
    id: string, channelType: Option<string>, categoryId: string, category: string,
    name: string, topic: Option<string>)

  /** `DateRange(after=None, before=None)`: the exporter never fills it. */
  datatype DateRange = DateRange

  datatype Role = Role(id: string, name: string, color: Option<string>, position: int)

  datatype User = User(
    id: string, name: string, discriminator: string, nickname: string,
    color: Option<string>, isBot: bool, roles: MaybeMissing<seq<Role>>, avatarUrl: string)

  datatype Attachment = Attachment(id: string, url: string, fileName: string, fileSizeBytes: int)

  /**
   * The embed author dict: `name` and `url` always, `iconUrl` and
   * `iconProxyUrl` only when the source has them (`None` = key not added).
   */
  datatype EmbedAuthor = EmbedAuthor(
    name: Option<string>, url: Option<string>, iconUrl: Option<string>, iconProxyUrl: Option<string>)

  /** The thumbnail, video (and never assigned image) dict. */
  datatype EmbedMedia = EmbedMedia(url: Option<string>, width: Option<int>, height: Option<int>)

  /** The footer dict: `text` always, the icon keys only when the source has them. */
  datatype EmbedFooter = EmbedFooter(text: Option<string>, iconUrl: Option<string>, iconProxyUrl: Option<string>)

  datatype EmbedField = EmbedField(name: string, value: string, isInline: bool)

  /** `images` is not a field here: it is always the empty list. */
  datatype Embed = Embed(
    title: string, url: Option<string>, timestamp: Option<string>, description: string,
    color: MaybeMissing<Option<string>>,
    author: MaybeMissing<EmbedAuthor>,
    thumbnail: MaybeMissing<EmbedMedia>,
    video: MaybeMissing<EmbedMedia>,
    footer: MaybeMissing<EmbedFooter>,
    image: MaybeMissing<EmbedMedia>,
    fields: seq<EmbedField>)

  datatype Sticker = Sticker(id: string, name: string, format: Option<string>, sourceUrl: string)

  datatype ReactionEmoji = ReactionEmoji(
    id: string, name: string, code: string, isAnimated: bool, imageUrl: Option<string>)

  datatype ReactionUser = ReactionUser(
    id: string, name: string, discriminator: string, nickname: string, isBot: bool, avatarUrl: string)

  datatype Reaction = Reaction(emoji: ReactionEmoji, count: int, users: seq<ReactionUser>)

  datatype MessageReference = MessageReference(messageId: string, channelId: string, guildId: string)

  /** `callEndedTimestamp` is not a field here: the exporter always leaves it `None`. */
  datatype Message = Message(
    id: string, messageType: string, timestamp: string, timestampEdited: Option<string>,
    isPinned: bool, content: string, author: User,
    attachments: seq<Attachment>, embeds: seq<Embed>, stickers: seq<Sticker>,
    reactions: seq<Reaction>, mentions: seq<User>,
    reference: MaybeMissing<MessageReference>)

  datatype Export = Export(
    guild: Guild, channel: Channel, dateRange: DateRange, exportedAt: string,
    messages: seq<Message>, messageCount: int)

  // ----- model_dump() -----

  function Text(s: Option<string>): Json.Value {
    if s.Some? then Json.Str(s.value) else Json.Null
  }

  function Number(n: Option<int>): Json.Value {
    if n.Some? then Json.Int(n.value) else Json.Null
  }

  /** A key the dict gets only when the value exists. */
  function OptionalKey(key: string, s: Option<string>): seq<Json.Field> {
    if s.Some? then [Json.Field(key, Json.Str(s.value))] else []
  }

  function GuildFields(g: Guild): seq<Json.Field> {
    [Json.Field("id", Json.Str(g.id)), Json.Field("name", Json.Str(g.name)),
     Json.Field("iconUrl", Text(g.iconUrl))]
  }

  function ChannelFields(c: Channel): seq<Json.Field> {
    [Json.Field("id", Json.Str(c.id)), Json.Field("type", Text(c.channelType)),
     Json.Field("categoryId", Json.Str(c.categoryId)), Json.Field("category", Json.Str(c.category)),
     Json.Field("name", Json.Str(c.name)), Json.Field("topic", Text(c.topic))]
  }

  function DateRangeFields(d: DateRange): seq<Json.Field> {
    [Json.Field("after", Json.Null), Json.Field("before", Json.Null)]
  }

  function RoleFields(r: Role): seq<Json.Field> {
    [Json.Field("id", Json.Str(r.id)), Json.Field("name", Json.Str(r.name)),
     Json.Field("color", Text(r.color)), Json.Field("position", Json.Int(r.position))]
  }

  function RolesValue(roles: MaybeMissing<seq<Role>>): Json.Value {
    if roles.Absent? then Json.Missing
    else Json.List(RoleList(roles.value))
  }

  function UserFields(u: User): seq<Json.Field> {
    UserHead(u) + [Json.Field("roles", RolesValue(u.roles)), Json.Field("avatarUrl", Json.Str(u.avatarUrl))]
  }

  /** The six entries of a user's dump that always hold a value. */
  function UserHead(u: User): seq<Json.Field> {
    [Json.Field("id", Json.Str(u.id)), Json.Field("name", Json.Str(u.name)),
     Json.Field("discriminator", Json.Str(u.discriminator)), Json.Field("nickname", Json.Str(u.nickname)),
     Json.Field("color", Text(u.color)), Json.Field("isBot", Json.Bool(u.isBot))]
  }

  function AttachmentFields(a: Attachment): seq<Json.Field> {
    [Json.Field("id", Json.Str(a.id)), Json.Field("url", Json.Str(a.url)),
     Json.Field("fileName", Json.Str(a.fileName)), Json.Field("fileSizeBytes", Json.Int(a.fileSizeBytes))]
  }

  function AuthorFields(a: EmbedAuthor): seq<Json.Field> {
    [Json.Field("name", Text(a.name)), Json.Field("url", Text(a.url))]
      + OptionalKey("iconUrl", a.iconUrl) + OptionalKey("iconProxyUrl", a.iconProxyUrl)
  }

  function MediaFields(m: EmbedMedia): seq<Json.Field> {
    [Json.Field("url", Text(m.url)), Json.Field("width", Number(m.width)), Json.Field("height", Number(m.height))]
  }

  function FooterFields(f: EmbedFooter): seq<Json.Field> {
    [Json.Field("text", Text(f.text))]
      + OptionalKey("iconUrl", f.iconUrl) + OptionalKey("iconProxyUrl", f.iconProxyUrl)
  }

  function EmbedFieldFields(f: EmbedField): seq<Json.Field> {
    [Json.Field("name", Json.Str(f.name)), Json.Field("value", Json.Str(f.value)),
     Json.Field("isInline", Json.Bool(f.isInline))]
  }

  function ColorSlot(c: MaybeMissing<Option<string>>): Json.Value {
    if c.Absent? then Json.Missing else Text(c.value)
  }

  function AuthorSlot(a: MaybeMissing<EmbedAuthor>): Json.Value {
    if a.Absent? then Json.Missing else Json.Dict(AuthorFields(a.value))
  }

  function MediaSlot(m: MaybeMissing<EmbedMedia>): Json.Value {
    if m.Absent? then Json.Missing else Json.Dict(MediaFields(m.value))
  }

  function FooterSlot(f: MaybeMissing<EmbedFooter>): Json.Value {
    if f.Absent? then Json.Missing else Json.Dict(FooterFields(f.value))
  }

  /** The four entries an embed's dump always keeps. */
  function EmbedHead(e: Embed): seq<Json.Field> {
    [Json.Field("title", Json.Str(e.title)), Json.Field("url", Text(e.url)),
     Json.Field("timestamp", Text(e.timestamp)), Json.Field("description", Json.Str(e.description))]
  }

  /** The eight entries behind the head: six `MISSING` slots, then the image list and the fields. */
  function EmbedSlots(e: Embed): seq<Json.Field> {
    [Json.Field("color", ColorSlot(e.color)), Json.Field("author", AuthorSlot(e.author)),
     Json.Field("thumbnail", MediaSlot(e.thumbnail)), Json.Field("video", MediaSlot(e.video)),
     Json.Field("footer", FooterSlot(e.footer)), Json.Field("image", MediaSlot(e.image)),
     Json.Field("images", Json.List([])),
     Json.Field("fields", Json.List(EmbedFieldList(e.fields)))]
  }

  function EmbedFields(e: Embed): seq<Json.Field> {
    EmbedHead(e) + EmbedSlots(e)
  }

  function StickerFields(s: Sticker): seq<Json.Field> {
    [Json.Field("id", Json.Str(s.id)), Json.Field("name", Json.Str(s.name)),
     Json.Field("format", Text(s.format)), Json.Field("sourceUrl", Json.Str(s.sourceUrl))]
  }

  function EmojiFields(e: ReactionEmoji): seq<Json.Field> {
    [Json.Field("id", Json.Str(e.id)), Json.Field("name", Json.Str(e.name)),
     Json.Field("code", Json.Str(e.code)), Json.Field("isAnimated", Json.Bool(e.isAnimated)),
     Json.Field("imageUrl", Text(e.imageUrl))]
  }

  function ReactionUserFields(u: ReactionUser): seq<Json.Field> {
    [Json.Field("id", Json.Str(u.id)), Json.Field("name", Json.Str(u.name)),
     Json.Field("discriminator", Json.Str(u.discriminator)), Json.Field("nickname", Json.Str(u.nickname)),
     Json.Field("isBot", Json.Bool(u.isBot)), Json.Field("avatarUrl", Json.Str(u.avatarUrl))]
  }

  function ReactionFields(r: Reaction): seq<Json.Field> {
    [Json.Field("emoji", Json.Dict(EmojiFields(r.emoji))), Json.Field("count", Json.Int(r.count)),
     Json.Field("users", Json.List(ReactionUserList(r.users)))]
  }

  function ReferenceSlot(r: MaybeMissing<MessageReference>): Json.Value {
    if r.Absent? then Json.Missing
    else Json.Dict([Json.Field("messageId", Json.Str(r.value.messageId)),
                    Json.Field("channelId", Json.Str(r.value.channelId)),
                    Json.Field("guildId", Json.Str(r.value.guildId))])
  }

  function MessageFields(m: Message): seq<Json.Field> {
    [Json.Field("id", Json.Str(m.id)), Json.Field("type", Json.Str(m.messageType)),
     Json.Field("timestamp", Json.Str(m.timestamp)), Json.Field("timestampEdited", Text(m.timestampEdited)),
     Json.Field("callEndedTimestamp", Json.Null), Json.Field("isPinned", Json.Bool(m.isPinned)),
     Json.Field("content", Json.Str(m.content)), Json.Field("author", Json.Dict(UserFields(m.author))),
     Json.Field("attachments", Json.List(AttachmentList(m.attachments))),
     Json.Field("embeds", Json.List(EmbedList(m.embeds))),
     Json.Field("stickers", Json.List(StickerList(m.stickers))),
     Json.Field("reactions", Json.List(ReactionList(m.reactions))),
     Json.Field("mentions", Json.List(UserList(m.mentions))),
     Json.Field("reference", ReferenceSlot(m.reference))]
  }

  function ExportFields(e: Export): seq<Json.Field> {
    [Json.Field("guild", Json.Dict(GuildFields(e.guild))), Json.Field("channel", Json.Dict(ChannelFields(e.channel))),
     Json.Field("dateRange", Json.Dict(DateRangeFields(e.dateRange))), Json.Field("exportedAt", Json.Str(e.exportedAt)),
     Json.Field("messages", Json.List(MessageList(e.messages))),
     Json.Field("messageCount", Json.Int(e.messageCount))]
  }

  // one dict per record, for the list-valued fields

  function RoleList(xs: seq<Role>): (r: seq<Json.Value>)
    ensures |r| == |xs| && forall i :: 0 <= i < |xs| ==> r[i] == Json.Dict(RoleFields(xs[i]))
  {
    seq(|xs|, i requires 0 <= i < |xs| => Json.Dict(RoleFields(xs[i])))
  }

  function EmbedFieldList(xs: seq<EmbedField>): (r: seq<Json.Value>)
    ensures |r| == |xs| && forall i :: 0 <= i < |xs| ==> r[i] == Json.Dict(EmbedFieldFields(xs[i]))
  {
    seq(|xs|, i requires 0 <= i < |xs| => Json.Dict(EmbedFieldFields(xs[i])))
  }

  function ReactionUserList(xs: seq<ReactionUser>): (r: seq<Json.Value>)
    ensures |r| == |xs| && forall i :: 0 <= i < |xs| ==> r[i] == Json.Dict(ReactionUserFields(xs[i]))
  {
    seq(|xs|, i requires 0 <= i < |xs| => Json.Dict(ReactionUserFields(xs[i])))
  }

  function AttachmentList(xs: seq<Attachment>): (r: seq<Json.Value>)
    ensures |r| == |xs| && forall i :: 0 <= i < |xs| ==> r[i] == Json.Dict(AttachmentFields(xs[i]))
  {
    seq(|xs|, i requires 0 <= i < |xs| => Json.Dict(AttachmentFields(xs[i])))
  }

  function EmbedList(xs: seq<Embed>): (r: seq<Json.Value>)
    ensures |r| == |xs| && forall i :: 0 <= i < |xs| ==> r[i] == Json.Dict(EmbedFields(xs[i]))
  {
    seq(|xs|, i requires 0 <= i < |xs| => Json.Dict(EmbedFields(xs[i])))
  }

  function StickerList(xs: seq<Sticker>): (r: seq<Json.Value>)
    ensures |r| == |xs| && forall i :: 0 <= i < |xs| ==> r[i] == Json.Dict(StickerFields(xs[i]))
  {
    seq(|xs|, i requires 0 <= i < |xs| => Json.Dict(StickerFields(xs[i])))
  }

  function ReactionList(xs: seq<Reaction>): (r: seq<Json.Value>)
    ensures |r| == |xs| && forall i :: 0 <= i < |xs| ==> r[i] == Json.Dict(ReactionFields(xs[i]))
  {
    seq(|xs|, i requires 0 <= i < |xs| => Json.Dict(ReactionFields(xs[i])))
  }

  function UserList(xs: seq<User>): (r: seq<Json.Value>)
    ensures |r| == |xs| && forall i :: 0 <= i < |xs| ==> r[i] == Json.Dict(UserFields(xs[i]))
  {
    seq(|xs|, i requires 0 <= i < |xs| => Json.Dict(UserFields(xs[i])))
  }

  function MessageList(xs: seq<Message>): (r: seq<Json.Value>)
    ensures |r| == |xs| && forall i :: 0 <= i < |xs| ==> r[i] == Json.Dict(MessageFields(xs[i]))
  {
    seq(|xs|, i requires 0 <= i < |xs| => Json.Dict(MessageFields(xs[i])))
  }

  /** `model_dump_json_filter_missing()` on an export. */
  function DumpFilterMissing(e: Export): Option<seq<Json.Field>> {
    Json.FilterFields(ExportFields(e))
  }

  // ----- what the dumps promise the filter -----

  /** A dict whose values are all scalars (or `MISSING`) has no list to trip over. */
  lemma FlatDict(fs: seq<Json.Field>)
    requires forall i :: 0 <= i < |fs| ==> !fs[i].val.List? && !fs[i].val.Dict?
    ensures Json.ListsOfDicts(fs)
  {
  }

  /** Two dicts that pass, laid end to end. */
  lemma DictsAppend(a: seq<Json.Field>, b: seq<Json.Field>)
    requires Json.ListsOfDicts(a) && Json.ListsOfDicts(b)
    ensures Json.ListsOfDicts(a + b)
  {
    assert forall i :: |a| <= i < |a + b| ==> (a + b)[i] == b[i - |a|];
  }

  /** A list of dicts each of which passes. */
  lemma DictList(items: seq<Json.Value>)
    requires forall j :: 0 <= j < |items| ==> items[j].Dict? && Json.ListsOfDicts(items[j].fields)
    ensures Json.ListsOfDictsIn(Json.List(items))
  {
  }

  lemma UserDicts(u: User)
    ensures Json.ListsOfDicts(UserFields(u))
  {
    if u.roles.Present? {
      forall i | 0 <= i < |u.roles.value| ensures Json.ListsOfDicts(RoleFields(u.roles.value[i])) {
        FlatDict(RoleFields(u.roles.value[i]));
      }
    }
  }

  lemma EmbedDicts(e: Embed)
    ensures Json.ListsOfDicts(EmbedFields(e))
  {
    EmbedSlotDicts(e);
    FlatDict(EmbedHead(e));
    DictsAppend(EmbedHead(e), EmbedSlots(e));
  }

  lemma EmbedSlotDicts(e: Embed)
    ensures Json.ListsOfDicts(EmbedSlots(e))
  {
    if e.author.Present? { FlatDict(AuthorFields(e.author.value)); }
    if e.thumbnail.Present? { FlatDict(MediaFields(e.thumbnail.value)); }
    if e.video.Present? { FlatDict(MediaFields(e.video.value)); }
    if e.footer.Present? { FlatDict(FooterFields(e.footer.value)); }
    if e.image.Present? { FlatDict(MediaFields(e.image.value)); }
    forall i | 0 <= i < |e.fields| ensures Json.ListsOfDicts(EmbedFieldFields(e.fields[i])) {
      FlatDict(EmbedFieldFields(e.fields[i]));
    }
  }

  lemma ReactionDicts(r: Reaction)
    ensures Json.ListsOfDicts(ReactionFields(r))
  {
    FlatDict(EmojiFields(r.emoji));
    forall i | 0 <= i < |r.users| ensures Json.ListsOfDicts(ReactionUserFields(r.users[i])) {
      FlatDict(ReactionUserFields(r.users[i]));
    }
  }

  lemma MessageDicts(m: Message)
    ensures Json.ListsOfDicts(MessageFields(m))
  {
    UserDicts(m.author);
    forall i | 0 <= i < |m.attachments| ensures Json.ListsOfDicts(AttachmentFields(m.attachments[i])) {
      FlatDict(AttachmentFields(m.attachments[i]));
    }
    forall i | 0 <= i < |m.embeds| ensures Json.ListsOfDicts(EmbedFields(m.embeds[i])) {
      EmbedDicts(m.embeds[i]);
    }
    forall i | 0 <= i < |m.stickers| ensures Json.ListsOfDicts(StickerFields(m.stickers[i])) {
      FlatDict(StickerFields(m.stickers[i]));
    }
    forall i | 0 <= i < |m.reactions| ensures Json.ListsOfDicts(ReactionFields(m.reactions[i])) {
      ReactionDicts(m.reactions[i]);
    }
    forall i | 0 <= i < |m.mentions| ensures Json.ListsOfDicts(UserFields(m.mentions[i])) {
      UserDicts(m.mentions[i]);
    }
    if m.reference.Present? {
      FlatDict(ReferenceSlot(m.reference).fields);
    }
  }

  /** Every list in an export dump holds dicts, so filtering the dump never fails. */
  lemma ExportDumpFilters(e: Export)
    ensures DumpFilterMissing(e).Some?
    ensures Json.CleanFields(DumpFilterMissing(e).value)
  {
    FlatDict(GuildFields(e.guild));
    FlatDict(ChannelFields(e.channel));
    FlatDict(DateRangeFields(e.dateRange));
    forall i | 0 <= i < |e.messages| ensures Json.ListsOfDicts(MessageFields(e.messages[i])) {
      MessageDicts(e.messages[i]);
    }
    assert Json.ListsOfDicts(ExportFields(e));
    Json.FilterOkIff(ExportFields(e));
    Json.FilterIsClean(ExportFields(e));
  }

  /**
   * `roles` is dropped from a user's dump exactly when it was never
   * assigned; an assigned empty list stays.
   */
  lemma UserKeysAfterFilter(u: User)
    ensures Json.FilterFields(UserFields(u)).Some?
    ensures Json.Keys(Json.FilterFields(UserFields(u)).value)
         == ["id", "name", "discriminator", "nickname", "color", "isBot"]
            + (if u.roles.Present? then ["roles"] else []) + ["avatarUrl"]
  {
    UserFilterKeys(u);
    UserKeptKeys(u);
  }

  lemma UserFilterKeys(u: User)
    ensures Json.FilterFields(UserFields(u)).Some?
    ensures Json.Keys(Json.FilterFields(UserFields(u)).value) == Json.KeptKeys(UserFields(u))
  {
    UserDicts(u);
    Json.FilterOkIff(UserFields(u));
    Json.FilterKeys(UserFields(u));
  }

  /** Of a user's eight entries only `roles` can be `MISSING`. */
  lemma UserKeptKeys(u: User)
    ensures Json.KeptKeys(UserFields(u))
         == ["id", "name", "discriminator", "nickname", "color", "isBot"]
            + (if u.roles.Present? then ["roles"] else []) + ["avatarUrl"]
  {
    var h := UserHead(u);
    var roles, avatar := Json.Field("roles", RolesValue(u.roles)), Json.Field("avatarUrl", Json.Str(u.avatarUrl));
    assert UserFields(u) == (h + [roles]) + [avatar];
    Json.KeptKeysAllSet(h);
    KeptKeysSnoc(h, roles);
    KeptKeysSnoc(h + [roles], avatar);
  }

  /** The key `k` when its slot is set, nothing otherwise. */
  function KeyIf(set_: bool, k: string): seq<string> {
    if set_ then [k] else []
  }

  /** The keys of an embed's dump, in declaration order, with the optional slots only when set. */
  function EmbedKeys(color: bool, author: bool, thumbnail: bool, video: bool, footer: bool, image: bool): seq<string> {
    ["title", "url", "timestamp", "description"]
    + KeyIf(color, "color") + KeyIf(author, "author") + KeyIf(thumbnail, "thumbnail")
    + KeyIf(video, "video") + KeyIf(footer, "footer") + KeyIf(image, "image")
    + ["images"] + ["fields"]
  }

  /**
   * An embed's dump loses exactly the slots the exporter never assigned
   * (colour, author, thumbnail, video, footer, and the image, which it
   * never assigns); the other keys, `images` and `fields` among them, stay
   * in declaration order.
   */
  lemma EmbedKeysAfterFilter(e: Embed)
    ensures Json.FilterFields(EmbedFields(e)).Some?
    ensures Json.Keys(Json.FilterFields(EmbedFields(e)).value)
         == EmbedKeys(e.color.Present?, e.author.Present?, e.thumbnail.Present?,
                      e.video.Present?, e.footer.Present?, e.image.Present?)
  {
    EmbedFilterKeys(e);
    EmbedKeptKeys(e);
  }

  lemma EmbedFilterKeys(e: Embed)
    ensures Json.FilterFields(EmbedFields(e)).Some?
    ensures Json.Keys(Json.FilterFields(EmbedFields(e)).value) == Json.KeptKeys(EmbedFields(e))
  {
    EmbedDicts(e);
    Json.FilterOkIff(EmbedFields(e));
    Json.FilterKeys(EmbedFields(e));
  }

  /** One more entry at the end, its key kept when its value is set. */
  lemma KeptKeysSnoc(p: seq<Json.Field>, f: Json.Field)
    ensures Json.KeptKeys(p + [f]) == Json.KeptKeys(p) + KeyIf(!f.val.Missing?, f.key)
  {
    assert (p + [f])[..|p|] == p;
  }

  /** The kept keys of an embed's twelve entries, six of which may be `MISSING`. */
  lemma EmbedKeptKeys(e: Embed)
    ensures Json.KeptKeys(EmbedFields(e))
         == EmbedKeys(e.color.Present?, e.author.Present?, e.thumbnail.Present?,
                      e.video.Present?, e.footer.Present?, e.image.Present?)
  {
    EmbedFieldsParts(e);
    Json.KeptKeysAllSet(EmbedHead(e));
    EmbedTailKeys(e, EmbedHead(e));
  }

  lemma EmbedFieldsParts(e: Embed)
    ensures EmbedFields(e)
         == EmbedHead(e) + [Json.Field("color", ColorSlot(e.color))] + [Json.Field("author", AuthorSlot(e.author))]
            + [Json.Field("thumbnail", MediaSlot(e.thumbnail))] + [Json.Field("video", MediaSlot(e.video))]
            + [Json.Field("footer", FooterSlot(e.footer))] + [Json.Field("image", MediaSlot(e.image))]
            + [Json.Field("images", Json.List([]))] + [Json.Field("fields", Json.List(EmbedFieldList(e.fields)))]
  {
  }

  /** The last eight entries of an embed, added one at a time behind four entries that are all kept. */
  lemma EmbedTailKeys(e: Embed, p: seq<Json.Field>)
    requires Json.KeptKeys(p) == ["title", "url", "timestamp", "description"]
    ensures Json.KeptKeys(p + [Json.Field("color", ColorSlot(e.color))] + [Json.Field("author", AuthorSlot(e.author))]
            + [Json.Field("thumbnail", MediaSlot(e.thumbnail))] + [Json.Field("video", MediaSlot(e.video))]
            + [Json.Field("footer", FooterSlot(e.footer))] + [Json.Field("image", MediaSlot(e.image))]
            + [Json.Field("images", Json.List([]))] + [Json.Field("fields", Json.List(EmbedFieldList(e.fields)))])
         == EmbedKeys(e.color.Present?, e.author.Present?, e.thumbnail.Present?,
                      e.video.Present?, e.footer.Present?, e.image.Present?)
  {
    var p4 := p + [Json.Field("color", ColorSlot(e.color))];
    var p5 := p4 + [Json.Field("author", AuthorSlot(e.author))];
    var p6 := p5 + [Json.Field("thumbnail", MediaSlot(e.thumbnail))];
    var p7 := p6 + [Json.Field("video", MediaSlot(e.video))];
    var p8 := p7 + [Json.Field("footer", FooterSlot(e.footer))];
    var p9 := p8 + [Json.Field("image", MediaSlot(e.image))];
    var p10 := p9 + [Json.Field("images", Json.List([]))];
    KeptKeysSnoc(p, Json.Field("color", ColorSlot(e.color)));
    KeptKeysSnoc(p4, Json.Field("author", AuthorSlot(e.author)));
    KeptKeysSnoc(p5, Json.Field("thumbnail", MediaSlot(e.thumbnail)));
    KeptKeysSnoc(p6, Json.Field("video", MediaSlot(e.video)));
    KeptKeysSnoc(p7, Json.Field("footer", FooterSlot(e.footer)));
    KeptKeysSnoc(p8, Json.Field("image", MediaSlot(e.image)));
    KeptKeysSnoc(p9, Json.Field("images", Json.List([])));
    KeptKeysSnoc(p10, Json.Field("fields", Json.List(EmbedFieldList(e.fields))));
  }

  /** A message's dump loses `reference` exactly when the message replies to nothing. */
  lemma MessageKeysAfterFilter(m: Message)
    ensures Json.FilterFields(MessageFields(m)).Some?
    ensures "reference" in Json.Keys(Json.FilterFields(MessageFields(m)).value) <==> m.reference.Present?
  {
    var fs := MessageFields(m);
    MessageDicts(m);
    Json.FilterOkIff(fs);
    Json.FilterKeys(fs);
    Json.KeptKeysMember(fs, "reference");
  }
}
