/**
 * The message transformer of `exporter.py`: embeds, reaction emoji,
 * attachments, stickers and references mapped onto the export records,
 * and the order in which one message (and then a channel's history) goes
 * through the user cache. The functions here say what each step yields;
 * `Exporter` performs the same steps in place on a shared `Cache` and
 * is proved to agree with them.
 */
module Transformer {
  import opened Wrappers
  import opened Numerals
  import opened Discord
  import Formats
  import Models
  import Json
  import Mentions
  import opened EntityCache

  /** The three `ValueError`s and the failed attribute look-up the exporter can raise. */
  datatype ExportError = NoChannelOrGuild | NoChannel | NoCategory

  /** Python truthiness of an optional string: present and not empty. */
  predicate Truthy(o: Option<string>) {
    o.Some? && o.value != ""
  }

  /** A dict key added only `if value:`; `None` means the key is not added. */
  function WhenTruthy(o: Option<string>): (r: Option<string>)
    ensures r.Some? <==> Truthy(o)
    ensures r.Some? ==> r == o
  {
    if Truthy(o) then o else None
  }

  /** `value or ''`. */
  function OrEmpty(o: Option<string>): (r: string)
    ensures r == "" <==> !Truthy(o)
    ensures Truthy(o) ==> r == o.value
  {
    if o.Some? then o.value else ""
  }

  // ----- embeds -----

  function ConvertAuthor(a: SourceEmbedAuthor): Models.EmbedAuthor {
    Models.EmbedAuthor(a.name, a.url, WhenTruthy(a.iconUrl), WhenTruthy(a.proxyIconUrl))
  }

  function ConvertThumbnail(m: SourceMedia): Models.EmbedMedia {
    Models.EmbedMedia(m.proxyUrl, m.width, m.height)
  }

  /** The video url is the proxy url when that is set, the plain url otherwise. */
  function ConvertVideo(m: SourceMedia): Models.EmbedMedia {
    Models.EmbedMedia(if Truthy(m.proxyUrl) then m.proxyUrl else m.url, m.width, m.height)
  }

  function ConvertFooter(f: SourceFooter): Models.EmbedFooter {
    Models.EmbedFooter(f.text, WhenTruthy(f.iconUrl), WhenTruthy(f.proxyIconUrl))
  }

  function ConvertFields(fs: seq<SourceField>): (r: seq<Models.EmbedField>)
    ensures |r| == |fs|
    ensures forall i :: 0 <= i < |fs| ==> r[i] == Models.EmbedField(fs[i].name, fs[i].value, fs[i].inline)
  {
    seq(|fs|, i requires 0 <= i < |fs| => Models.EmbedField(fs[i].name, fs[i].value, fs[i].inline))
  }

  /** One pass of the `_get_embeds` loop body. */
  function ConvertEmbed(e: SourceEmbed): Models.Embed {
    Models.Embed(
      OrEmpty(e.title),
      e.url,
      if e.timestamp.Some? then Some(Formats.FormatTime(e.timestamp.value)) else None,
      OrEmpty(e.description),
      // a `Colour` is truthy whatever its value, so a present colour 0 is assigned (as null)
      if e.color.Some? then Models.Present(Formats.ColorValue(e.color.value)) else Models.Absent,
      if e.author.Some? then Models.Present(ConvertAuthor(e.author.value)) else Models.Absent,
      if e.thumbnail.Some? then Models.Present(ConvertThumbnail(e.thumbnail.value)) else Models.Absent,
      if e.video.Some? then Models.Present(ConvertVideo(e.video.value)) else Models.Absent,
      if e.footer.Some? then Models.Present(ConvertFooter(e.footer.value)) else Models.Absent,
      Models.Absent,
      ConvertFields(e.fields))
  }

  // ----- reactions, attachments, stickers, references -----

  /** The emoji of a reaction; `index` stands for the emoji-name table the exporter imports. */
  function EmojiOf(e: Emoji, index: map<string, string>): Models.ReactionEmoji {
    match e
    case CustomEmoji(id, name, animated, url) =>
      Models.ReactionEmoji(Numeral(id, Dec), name, name, animated, Some(url))
    case UnicodeEmoji(glyph) =>
      Models.ReactionEmoji("", glyph, if glyph in index then index[glyph] else "", false, None)
  }

  function ProjectAttachment(a: SourceAttachment): Models.Attachment {
    Models.Attachment(Numeral(a.id, Dec), a.url, a.filename, a.size)
  }

  function ProjectAttachments(xs: seq<SourceAttachment>): (r: seq<Models.Attachment>)
    ensures |r| == |xs| && forall i :: 0 <= i < |xs| ==> r[i] == ProjectAttachment(xs[i])
  {
    seq(|xs|, i requires 0 <= i < |xs| => ProjectAttachment(xs[i]))
  }

  function ProjectSticker(s: SourceSticker): Models.Sticker {
    Models.Sticker(Numeral(s.id, Dec), s.name, Models.StickerFormatName(s.formatCode), s.url)
  }

  function ProjectStickers(xs: seq<SourceSticker>): (r: seq<Models.Sticker>)
    ensures |r| == |xs| && forall i :: 0 <= i < |xs| ==> r[i] == ProjectSticker(xs[i])
  {
    seq(|xs|, i requires 0 <= i < |xs| => ProjectSticker(xs[i]))
  }

  function ConvertEmbeds(es: seq<SourceEmbed>): (r: seq<Models.Embed>)
    ensures |r| == |es| && forall i :: 0 <= i < |es| ==> r[i] == ConvertEmbed(es[i])
  {
    seq(|es|, i requires 0 <= i < |es| => ConvertEmbed(es[i]))
  }

  /** `str(id)` of an optional id: an absent id prints as `None`. */
  function IdText(o: Option<nat>): (r: string)
    ensures o.None? ==> r == "None"
    ensures o.Some? ==> AllDigits(r, Dec) && ValueOf(r, Dec) == o.value
  {
    if o.Some? then Numeral(o.value, Dec) else "None"
  }

  function ProjectReference(r: SourceReference): Models.MessageReference {
    Models.MessageReference(IdText(r.messageId), IdText(r.channelId), IdText(r.guildId))
  }

  // ----- the cache-threading folds -----

  /** `[await _get_author(p) for p in ps]`. */
  function AuthorsFold(c: CacheState, dir: Directory, ps: seq<Person>, alwaysUseUsername: bool)
    : (r: (CacheState, seq<Models.User>))
    ensures |r.1| == |ps|
  {
    if ps == [] then (c, [])
    else
      var before := AuthorsFold(c, dir, ps[..|ps| - 1], alwaysUseUsername);
      var last := AuthorStep(before.0, dir, ps[|ps| - 1], alwaysUseUsername);
      (last.0, before.1 + [last.1])
  }

  /** `[await _get_reaction_user(p) async for p in reaction.users()]`. */
  function ReactionUsersFold(c: CacheState, dir: Directory, ps: seq<Person>, alwaysUseUsername: bool)
    : (r: (CacheState, seq<Models.ReactionUser>))
    ensures |r.1| == |ps|
  {
    if ps == [] then (c, [])
    else
      var before := ReactionUsersFold(c, dir, ps[..|ps| - 1], alwaysUseUsername);
      var last := ReactionUserStep(before.0, dir, ps[|ps| - 1], alwaysUseUsername);
      (last.0, before.1 + [last.1])
  }

  /** `_get_reactions`: reactions in order, each with its users in order. */
  function ReactionsFold(c: CacheState, dir: Directory, rs: seq<SourceReaction>, alwaysUseUsername: bool,
                         index: map<string, string>): (r: (CacheState, seq<Models.Reaction>))
    ensures |r.1| == |rs|
  {
    if rs == [] then (c, [])
    else
      var before := ReactionsFold(c, dir, rs[..|rs| - 1], alwaysUseUsername, index);
      var x := rs[|rs| - 1];
      var users := ReactionUsersFold(before.0, dir, x.users, alwaysUseUsername);
      (users.0, before.1 + [Models.Reaction(EmojiOf(x.emoji, index), x.count, users.1)])
  }

  /** One more person extends the author fold by that person's look-up. */
  lemma AuthorsFoldSnoc(c: CacheState, dir: Directory, ps: seq<Person>, i: nat,
                        c1: CacheState, done: seq<Models.User>, alwaysUseUsername: bool)
    requires i < |ps|
    requires AuthorsFold(c, dir, ps[..i], alwaysUseUsername) == (c1, done)
    ensures var last := AuthorStep(c1, dir, ps[i], alwaysUseUsername);
      AuthorsFold(c, dir, ps[..i + 1], alwaysUseUsername) == (last.0, done + [last.1])
  {
    PrefixSnoc(ps, i);
  }

  /** One more person extends the reaction-user fold by that person's look-up. */
  lemma ReactionUsersFoldSnoc(c: CacheState, dir: Directory, ps: seq<Person>, i: nat,
                              c1: CacheState, done: seq<Models.ReactionUser>, alwaysUseUsername: bool)
    requires i < |ps|
    requires ReactionUsersFold(c, dir, ps[..i], alwaysUseUsername) == (c1, done)
    ensures var last := ReactionUserStep(c1, dir, ps[i], alwaysUseUsername);
      ReactionUsersFold(c, dir, ps[..i + 1], alwaysUseUsername) == (last.0, done + [last.1])
  {
    PrefixSnoc(ps, i);
  }

  /** One more reaction extends the reaction fold by that reaction and its users. */
  lemma ReactionsFoldSnoc(c: CacheState, dir: Directory, rs: seq<SourceReaction>, i: nat,
                          c1: CacheState, done: seq<Models.Reaction>, alwaysUseUsername: bool,
                          index: map<string, string>)
    requires i < |rs|
    requires ReactionsFold(c, dir, rs[..i], alwaysUseUsername, index) == (c1, done)
    ensures var users := ReactionUsersFold(c1, dir, rs[i].users, alwaysUseUsername);
      ReactionsFold(c, dir, rs[..i + 1], alwaysUseUsername, index)
        == (users.0, done + [Models.Reaction(EmojiOf(rs[i].emoji, index), rs[i].count, users.1)])
  {
    PrefixSnoc(rs, i);
  }

  /**
   * The mention loop of `get_message` over the matches `ms` of the original
   * content: a match whose id the guild resolves has every occurrence of its
   * token replaced by `@` and the user's name; the others are skipped.
   */
  function RewriteFold(c: CacheState, dir: Directory, ms: seq<Mentions.Mention>, content: string,
                       alwaysUseUsername: bool): (CacheState, string)
    requires forall k :: 0 <= k < |ms| ==> |ms[k].token| > 0
  {
    if ms == [] then (c, content)
    else
      var before := RewriteFold(c, dir, ms[..|ms| - 1], content, alwaysUseUsername);
      var m := ms[|ms| - 1];
      var who := SafeFetch(dir, m.id);
      if who.None? then before
      else
        var u := AuthorStep(before.0, dir, who.value, alwaysUseUsername);
        (u.0, Mentions.Replace(before.1, m.token, "@" + u.1.name))
  }

  /** One more match extends the rewrite by that match: its token is replaced when the guild resolves its id. */
  lemma RewriteFoldSnoc(c: CacheState, dir: Directory, ms: seq<Mentions.Mention>, i: nat, content: string,
                        alwaysUseUsername: bool, c1: CacheState, s1: string)
    requires i < |ms| && forall k :: 0 <= k < |ms| ==> |ms[k].token| > 0
    requires RewriteFold(c, dir, ms[..i], content, alwaysUseUsername) == (c1, s1)
    ensures var who := SafeFetch(dir, ms[i].id);
      RewriteFold(c, dir, ms[..i + 1], content, alwaysUseUsername)
        == if who.None? then (c1, s1)
           else var u := AuthorStep(c1, dir, who.value, alwaysUseUsername);
             (u.0, Mentions.Replace(s1, ms[i].token, "@" + u.1.name))
  {
    PrefixSnoc(ms, i);
  }

  /** The matches of `ms` whose ids the guild resolves, in order. */
  function Resolved(dir: Directory, ms: seq<Mentions.Mention>): (r: seq<Mentions.Mention>)
    ensures |r| <= |ms|
    ensures forall k :: 0 <= k < |r| ==> r[k] in ms && SafeFetch(dir, r[k].id).Some?
  {
    if ms == [] then []
    else
      var last := ms[|ms| - 1];
      Resolved(dir, ms[..|ms| - 1]) + if SafeFetch(dir, last.id).Some? then [last] else []
  }

  /** A match the guild does not resolve is skipped (`continue`): only the resolved ones change anything. */
  lemma {:induction false} RewriteResolvedOnly(c: CacheState, dir: Directory, ms: seq<Mentions.Mention>,
                                               content: string, alwaysUseUsername: bool)
    requires forall k :: 0 <= k < |ms| ==> |ms[k].token| > 0
    ensures forall k :: 0 <= k < |Resolved(dir, ms)| ==> |Resolved(dir, ms)[k].token| > 0
    ensures RewriteFold(c, dir, ms, content, alwaysUseUsername)
         == RewriteFold(c, dir, Resolved(dir, ms), content, alwaysUseUsername)
  {
    if ms != [] {
      var init, last := ms[..|ms| - 1], ms[|ms| - 1];
      RewriteResolvedOnly(c, dir, init, content, alwaysUseUsername);
      var r0 := Resolved(dir, init);
      if SafeFetch(dir, last.id).Some? {
        assert Resolved(dir, ms) == r0 + [last];
        assert (r0 + [last])[..|r0|] == r0;
      } else {
        assert Resolved(dir, ms) == r0;
      }
    }
  }

  /**
   * A resolved match replaces every occurrence of its token in the content so
   * far by `@` and the member's name: the name already filed for that id, or
   * else the name of the member the look-up files.
   */
  lemma RewriteResolvedStep(c: CacheState, dir: Directory, ms: seq<Mentions.Mention>, i: nat, content: string,
                            alwaysUseUsername: bool, c1: CacheState, s1: string)
    requires i < |ms| && forall k :: 0 <= k < |ms| ==> |ms[k].token| > 0
    requires RewriteFold(c, dir, ms[..i], content, alwaysUseUsername) == (c1, s1)
    requires SafeFetch(dir, ms[i].id).Some?
    ensures var who := SafeFetch(dir, ms[i].id).value;
            var name := if who.id in c1.authors then c1.authors[who.id].name
                        else Subject(RecordMember(c1.members, dir, who), who).name;
            RewriteFold(c, dir, ms[..i + 1], content, alwaysUseUsername).1
              == Mentions.Replace(s1, ms[i].token, "@" + name)
  {
    RewriteFoldSnoc(c, dir, ms, i, content, alwaysUseUsername, c1, s1);
  }

  /** `get_message`: the message record and the cache after it. */
  function MessageStep(c: CacheState, dir: Directory, m: SourceMessage, alwaysUseUsername: bool,
                       index: map<string, string>): (CacheState, Models.Message)
  {
    var author := AuthorStep(c, dir, m.author, alwaysUseUsername);
    var content := RewriteFold(author.0, dir, Mentions.Matches(m.content), m.content, alwaysUseUsername);
    var reactions := ReactionsFold(content.0, dir, m.reactions, alwaysUseUsername, index);
    var mentions := AuthorsFold(reactions.0, dir, m.mentions, alwaysUseUsername);
    (mentions.0, Models.Message(
      Numeral(m.id, Dec),
      Models.MessageTypeName(m.typeCode),
      Formats.FormatTime(m.createdAt),
      if m.editedAt.Some? then Some(Formats.FormatTime(m.editedAt.value)) else None,
      m.pinned,
      content.1,
      author.1,
      ProjectAttachments(m.attachments),
      ConvertEmbeds(m.embeds),
      ProjectStickers(m.stickers),
      reactions.1,
      mentions.1,
      if m.reference.Some? then Models.Present(ProjectReference(m.reference.value)) else Models.Absent))
  }

  /** `_get_messages`: the history oldest first, one message after another. */
  function MessagesFold(c: CacheState, dir: Directory, h: seq<SourceMessage>, alwaysUseUsername: bool,
                        index: map<string, string>): (r: (CacheState, seq<Models.Message>))
    ensures |r.1| == |h|
  {
    if h == [] then (c, [])
    else
      var before := MessagesFold(c, dir, h[..|h| - 1], alwaysUseUsername, index);
      var last := MessageStep(before.0, dir, h[|h| - 1], alwaysUseUsername, index);
      (last.0, before.1 + [last.1])
  }

  /** One more message extends the fold by that message's step. */
  lemma MessagesFoldSnoc(c: CacheState, dir: Directory, h: seq<SourceMessage>, i: nat,
                         c1: CacheState, done: seq<Models.Message>, alwaysUseUsername: bool, index: map<string, string>)
    requires i < |h|
    requires MessagesFold(c, dir, h[..i], alwaysUseUsername, index) == (c1, done)
    ensures var last := MessageStep(c1, dir, h[i], alwaysUseUsername, index);
      MessagesFold(c, dir, h[..i + 1], alwaysUseUsername, index) == (last.0, done + [last.1])
  {
    PrefixSnoc(h, i);
  }

  // ----- guild, channel, export -----

  function GuildSnapshot(g: SourceGuild): Models.Guild {
    Models.Guild(Numeral(g.id, Dec), g.name, g.iconUrl)
  }

  /**
   * `_get_channel`: a thread is filed under its parent channel, any other
   * channel under its category; a channel with neither fails.
   */
  function ChannelSnapshot(ch: SourceChannel): Result<Models.Channel, ExportError> {
    var holder := if ch.parent.Some? then ch.parent else ch.category;
    if holder.None? then Err(NoCategory)
    else
      Ok(Models.Channel(Numeral(ch.id, Dec), Models.ChannelTypeName(ch.typeCode),
                        Numeral(holder.value.id, Dec), holder.value.name, ch.name, ch.topic))
  }

  /** `Exporter.__init__`: the guild the exporter works in. */
  function ResolveGuild(channel: Option<SourceChannel>, guild: Option<SourceGuild>): (r: Result<SourceGuild, ExportError>)
    ensures r.Err? <==> channel.None? && guild.None?
    ensures r.Err? ==> r.error == NoChannelOrGuild
    ensures guild.Some? ==> r == Ok(guild.value)
    ensures guild.None? && channel.Some? ==> r == Ok(channel.value.guild)
  {
    if guild.Some? then Ok(guild.value)
    else if channel.Some? then Ok(channel.value.guild)
    else Err(NoChannelOrGuild)
  }

  /** `export`: all messages first, then the guild and channel records around them. */
  function ExportStep(c: CacheState, ch: SourceChannel, g: SourceGuild, h: seq<SourceMessage>, now: DateTime,
                      alwaysUseUsername: bool, index: map<string, string>): (CacheState, Result<Models.Export, ExportError>)
  {
    var messages := MessagesFold(c, g.directory, h, alwaysUseUsername, index);
    match ChannelSnapshot(ch)
    case Err(e) => (messages.0, Err(e))
    case Ok(channel) =>
      (messages.0, Ok(Models.Export(GuildSnapshot(g), channel, Models.DateRange, Formats.FormatTime(now), messages.1, |messages.1|)))
  }

  // ----- lemmas -----

  /**
   * An embed gets a colour, author, thumbnail, video and footer exactly when
   * the source embed has one, never an image; a colour of 0 is kept as null;
   * the video prefers the proxy url; title and description fall back to ''.
   */
  lemma ConvertEmbedSlots(e: SourceEmbed)
    ensures var r := ConvertEmbed(e);
      && (r.color.Present? <==> e.color.Some?)
      && (r.color == Models.Present(None) <==> e.color == Some(0))
      && (r.author.Present? <==> e.author.Some?)
      && (r.thumbnail.Present? <==> e.thumbnail.Some?)
      && (r.video.Present? <==> e.video.Some?)
      && (r.footer.Present? <==> e.footer.Some?)
      && r.image.Absent?
      && (r.title == "" <==> !Truthy(e.title))
      && (r.description == "" <==> !Truthy(e.description))
      && (r.timestamp.Some? <==> e.timestamp.Some?)
      && (e.video.Some? && Truthy(e.video.value.proxyUrl) ==> r.video.value.url == e.video.value.proxyUrl)
      && (e.video.Some? && !Truthy(e.video.value.proxyUrl) ==> r.video.value.url == e.video.value.url)
      && |r.fields| == |e.fields|
  {
  }

  /** In the written embed, the optional keys appear exactly for what the source embed has, and `image` never. */
  lemma EmbedDumpKeys(e: SourceEmbed)
    ensures Json.FilterFields(Models.EmbedFields(ConvertEmbed(e))).Some?
    ensures Json.Keys(Json.FilterFields(Models.EmbedFields(ConvertEmbed(e))).value)
         == Models.EmbedKeys(e.color.Some?, e.author.Some?, e.thumbnail.Some?, e.video.Some?, e.footer.Some?, false)
  {
    ConvertEmbedSlots(e);
    Models.EmbedKeysAfterFilter(ConvertEmbed(e));
  }

  /** A custom emoji keeps its id, name and animation; a Unicode one is named by its glyph and coded by the table. */
  lemma EmojiShape(e: Emoji, index: map<string, string>)
    ensures var r := EmojiOf(e, index);
      && (r.id == "" <==> e.UnicodeEmoji?)
      && (r.imageUrl.Some? <==> e.CustomEmoji?)
      && (e.CustomEmoji? ==>
            ValueOf(r.id, Dec) == e.id && r.name == e.name && r.code == e.name && r.isAnimated == e.animated)
      && (e.UnicodeEmoji? ==> r.name == e.glyph && !r.isAnimated)
      && (e.UnicodeEmoji? && e.glyph in index ==> r.code == index[e.glyph])
      && (e.UnicodeEmoji? && e.glyph !in index ==> r.code == "")
  {
  }

  /** `c2` keeps every entry of `c` in each of the three dictionaries. */
  predicate Extends(c: CacheState, c2: CacheState) {
    && (forall k :: k in c.authors ==> k in c2.authors && c2.authors[k] == c.authors[k])
    && (forall k :: k in c.members ==> k in c2.members && c2.members[k] == c.members[k])
    && (forall k :: k in c.reactionUsers ==> k in c2.reactionUsers && c2.reactionUsers[k] == c.reactionUsers[k])
  }

  /** One look-up of either kind only adds entries, and keeps each filed under its own id. */
  lemma StepsExtend(c: CacheState, dir: Directory, p: Person, alwaysUseUsername: bool)
    requires CacheValid(c) && DirectoryOk(dir)
    ensures CacheValid(AuthorStep(c, dir, p, alwaysUseUsername).0)
    ensures Extends(c, AuthorStep(c, dir, p, alwaysUseUsername).0)
    ensures CacheValid(ReactionUserStep(c, dir, p, alwaysUseUsername).0)
    ensures Extends(c, ReactionUserStep(c, dir, p, alwaysUseUsername).0)
  {
    RecordMemberFrame(c.members, dir, p);
    if p.id !in c.authors {
      AuthorMiss(c, dir, p, alwaysUseUsername);
    }
    if p.id !in c.reactionUsers {
      ReactionUserMiss(c, dir, p, alwaysUseUsername);
    }
  }

  lemma {:induction false} AuthorsFoldExtends(c: CacheState, dir: Directory, ps: seq<Person>, alwaysUseUsername: bool)
    requires CacheValid(c) && DirectoryOk(dir)
    ensures CacheValid(AuthorsFold(c, dir, ps, alwaysUseUsername).0)
    ensures Extends(c, AuthorsFold(c, dir, ps, alwaysUseUsername).0)
  {
    if ps != [] {
      AuthorsFoldExtends(c, dir, ps[..|ps| - 1], alwaysUseUsername);
      StepsExtend(AuthorsFold(c, dir, ps[..|ps| - 1], alwaysUseUsername).0, dir, ps[|ps| - 1], alwaysUseUsername);
    }
  }

  lemma {:induction false} ReactionUsersFoldExtends(c: CacheState, dir: Directory, ps: seq<Person>, alwaysUseUsername: bool)
    requires CacheValid(c) && DirectoryOk(dir)
    ensures CacheValid(ReactionUsersFold(c, dir, ps, alwaysUseUsername).0)
    ensures Extends(c, ReactionUsersFold(c, dir, ps, alwaysUseUsername).0)
  {
    if ps != [] {
      ReactionUsersFoldExtends(c, dir, ps[..|ps| - 1], alwaysUseUsername);
      StepsExtend(ReactionUsersFold(c, dir, ps[..|ps| - 1], alwaysUseUsername).0, dir, ps[|ps| - 1], alwaysUseUsername);
    }
  }

  lemma {:induction false} ReactionsFoldExtends(c: CacheState, dir: Directory, rs: seq<SourceReaction>,
                                                alwaysUseUsername: bool, index: map<string, string>)
    requires CacheValid(c) && DirectoryOk(dir)
    ensures CacheValid(ReactionsFold(c, dir, rs, alwaysUseUsername, index).0)
    ensures Extends(c, ReactionsFold(c, dir, rs, alwaysUseUsername, index).0)
  {
    if rs != [] {
      ReactionsFoldExtends(c, dir, rs[..|rs| - 1], alwaysUseUsername, index);
      var c1 := ReactionsFold(c, dir, rs[..|rs| - 1], alwaysUseUsername, index).0;
      ReactionUsersFoldExtends(c1, dir, rs[|rs| - 1].users, alwaysUseUsername);
    }
  }

  lemma {:induction false} RewriteFoldExtends(c: CacheState, dir: Directory, ms: seq<Mentions.Mention>, content: string,
                                              alwaysUseUsername: bool)
    requires forall k :: 0 <= k < |ms| ==> |ms[k].token| > 0
    requires CacheValid(c) && DirectoryOk(dir)
    ensures CacheValid(RewriteFold(c, dir, ms, content, alwaysUseUsername).0)
    ensures Extends(c, RewriteFold(c, dir, ms, content, alwaysUseUsername).0)
  {
    if ms != [] {
      RewriteFoldExtends(c, dir, ms[..|ms| - 1], content, alwaysUseUsername);
      var c1 := RewriteFold(c, dir, ms[..|ms| - 1], content, alwaysUseUsername).0;
      var who := SafeFetch(dir, ms[|ms| - 1].id);
      if who.Some? {
        StepsExtend(c1, dir, who.value, alwaysUseUsername);
      }
    }
  }

  /** A message only adds to the cache; a user already filed keeps the record every earlier message got. */
  lemma MessageStepExtends(c: CacheState, dir: Directory, m: SourceMessage, alwaysUseUsername: bool,
                           index: map<string, string>)
    requires CacheValid(c) && DirectoryOk(dir)
    ensures CacheValid(MessageStep(c, dir, m, alwaysUseUsername, index).0)
    ensures Extends(c, MessageStep(c, dir, m, alwaysUseUsername, index).0)
  {
    var c1 := AuthorStep(c, dir, m.author, alwaysUseUsername).0;
    StepsExtend(c, dir, m.author, alwaysUseUsername);
    var c2 := RewriteFold(c1, dir, Mentions.Matches(m.content), m.content, alwaysUseUsername).0;
    RewriteFoldExtends(c1, dir, Mentions.Matches(m.content), m.content, alwaysUseUsername);
    var c3 := ReactionsFold(c2, dir, m.reactions, alwaysUseUsername, index).0;
    ReactionsFoldExtends(c2, dir, m.reactions, alwaysUseUsername, index);
    AuthorsFoldExtends(c3, dir, m.mentions, alwaysUseUsername);
  }

  /** The same over a whole history. */
  lemma {:induction false} MessagesFoldExtends(c: CacheState, dir: Directory, h: seq<SourceMessage>,
                                               alwaysUseUsername: bool, index: map<string, string>)
    requires CacheValid(c) && DirectoryOk(dir)
    ensures CacheValid(MessagesFold(c, dir, h, alwaysUseUsername, index).0)
    ensures Extends(c, MessagesFold(c, dir, h, alwaysUseUsername, index).0)
  {
    if h != [] {
      MessagesFoldExtends(c, dir, h[..|h| - 1], alwaysUseUsername, index);
      MessageStepExtends(MessagesFold(c, dir, h[..|h| - 1], alwaysUseUsername, index).0, dir, h[|h| - 1],
                         alwaysUseUsername, index);
    }
  }

  /** Tokens whose ids the guild does not resolve are left as they are, and the cache is not touched. */
  lemma {:induction false} RewriteUnresolved(c: CacheState, dir: Directory, ms: seq<Mentions.Mention>, content: string,
                                             alwaysUseUsername: bool)
    requires forall k :: 0 <= k < |ms| ==> |ms[k].token| > 0
    requires forall k :: 0 <= k < |ms| ==> SafeFetch(dir, ms[k].id).None?
    ensures RewriteFold(c, dir, ms, content, alwaysUseUsername) == (c, content)
  {
    if ms != [] {
      RewriteUnresolved(c, dir, ms[..|ms| - 1], content, alwaysUseUsername);
    }
  }

  /** Content without a mention token comes out unchanged. */
  lemma RewriteNoTokens(c: CacheState, dir: Directory, content: string, alwaysUseUsername: bool)
    requires forall j :: 0 <= j < |content| ==> Mentions.TokenAt(content, j).None?
    ensures RewriteFold(c, dir, Mentions.Matches(content), content, alwaysUseUsername) == (c, content)
  {
    Mentions.NoMatches(content);
  }

  /**
   * A message record: its id, its author as `_get_author` gives it, one entry
   * per attachment, embed, sticker, reaction and mention, an edit time only
   * when edited, and a reference only when the message replies to one.
   */
  lemma MessageStepShape(c: CacheState, dir: Directory, m: SourceMessage, alwaysUseUsername: bool,
                         index: map<string, string>)
    ensures var r := MessageStep(c, dir, m, alwaysUseUsername, index).1;
      && ValueOf(r.id, Dec) == m.id
      && r.author == AuthorStep(c, dir, m.author, alwaysUseUsername).1
      && (r.timestampEdited.Some? <==> m.editedAt.Some?)
      && |r.attachments| == |m.attachments| && |r.embeds| == |m.embeds| && |r.stickers| == |m.stickers|
      && |r.reactions| == |m.reactions| && |r.mentions| == |m.mentions|
      && (forall j :: 0 <= j < |m.embeds| ==> r.embeds[j] == ConvertEmbed(m.embeds[j]))
      && (r.reference.Present? <==> m.reference.Some?)
      && (m.reference.Some? && m.reference.value.messageId.None? ==> r.reference.value.messageId == "None")
  {
  }

  /** The written message has a `reference` key exactly when the message replies to one. */
  lemma MessageDumpReference(c: CacheState, dir: Directory, m: SourceMessage, alwaysUseUsername: bool,
                             index: map<string, string>)
    ensures var r := MessageStep(c, dir, m, alwaysUseUsername, index).1;
      && Json.FilterFields(Models.MessageFields(r)).Some?
      && ("reference" in Json.Keys(Json.FilterFields(Models.MessageFields(r)).value) <==> m.reference.Some?)
  {
    var r := MessageStep(c, dir, m, alwaysUseUsername, index).1;
    MessageStepShape(c, dir, m, alwaysUseUsername, index);
    Models.MessageKeysAfterFilter(r);
  }

  /** The history comes out one record per message, oldest first. */
  lemma {:induction false} MessagesFoldIds(c: CacheState, dir: Directory, h: seq<SourceMessage>,
                                           alwaysUseUsername: bool, index: map<string, string>)
    ensures var r := MessagesFold(c, dir, h, alwaysUseUsername, index).1;
      forall i :: 0 <= i < |h| ==> ValueOf(r[i].id, Dec) == h[i].id
  {
    if h != [] {
      var init := h[..|h| - 1];
      MessagesFoldIds(c, dir, init, alwaysUseUsername, index);
      var c1 := MessagesFold(c, dir, init, alwaysUseUsername, index).0;
      var done := MessagesFold(c, dir, init, alwaysUseUsername, index).1;
      var msg := MessageStep(c1, dir, h[|h| - 1], alwaysUseUsername, index).1;
      MessageStepId(c1, dir, h[|h| - 1], alwaysUseUsername, index);
      var r := MessagesFold(c, dir, h, alwaysUseUsername, index).1;
      assert r == done + [msg];
      IdsSnoc(h, done, msg);

    }
  }

  /** Ids matched along the prefix and at the last place are matched everywhere. */
  lemma IdsSnoc(h: seq<SourceMessage>, done: seq<Models.Message>, msg: Models.Message)
    requires |h| == |done| + 1
    requires forall i :: 0 <= i < |done| ==> ValueOf(done[i].id, Dec) == h[..|h| - 1][i].id
    requires ValueOf(msg.id, Dec) == h[|h| - 1].id
    ensures forall i :: 0 <= i < |h| ==> ValueOf((done + [msg])[i].id, Dec) == h[i].id
  {
    forall i | 0 <= i < |h| ensures ValueOf((done + [msg])[i].id, Dec) == h[i].id {
      if i < |done| {
        assert h[..|h| - 1][i] == h[i];
      }
    }
  }

  lemma MessageStepId(c: CacheState, dir: Directory, m: SourceMessage, alwaysUseUsername: bool,
                      index: map<string, string>)
    ensures ValueOf(MessageStep(c, dir, m, alwaysUseUsername, index).1.id, Dec) == m.id
  {
  }

  /**
   * An export fails only for a channel with neither parent nor category;
   * otherwise it lists the whole history in order and counts it.
   */
  lemma ExportShape(c: CacheState, ch: SourceChannel, g: SourceGuild, h: seq<SourceMessage>, now: DateTime,
                    alwaysUseUsername: bool, index: map<string, string>)
    ensures var r := ExportStep(c, ch, g, h, now, alwaysUseUsername, index).1;
      && (r.Err? <==> ch.parent.None? && ch.category.None?)
      && (r.Err? ==> r.error == NoCategory)
      && (r.Ok? ==> r.value.messageCount == |r.value.messages| == |h|)
      && (r.Ok? ==> forall i :: 0 <= i < |h| ==> ValueOf(r.value.messages[i].id, Dec) == h[i].id)
      && (r.Ok? && ch.parent.Some? ==> ValueOf(r.value.channel.categoryId, Dec) == ch.parent.value.id)
      && (r.Ok? && ch.parent.None? ==> ValueOf(r.value.channel.categoryId, Dec) == ch.category.value.id)
  {
    MessagesFoldIds(c, g.directory, h, alwaysUseUsername, index);
  }

  // ----- the exporter object -----

  class Exporter {
    const cache: Cache
    const channel: Option<SourceChannel>
    const guild: SourceGuild
    const alwaysUseUsername: bool
    const emojiIndex: map<string, string>

    constructor (cache: Cache, channel: Option<SourceChannel>, alwaysUseUsername: bool, guild: SourceGuild,
                 emojiIndex: map<string, string>)
      ensures this.cache == cache && this.channel == channel && this.guild == guild
      ensures this.alwaysUseUsername == alwaysUseUsername && this.emojiIndex == emojiIndex
    {
      this.cache := cache;
      this.channel := channel;
      this.guild := guild;
      this.alwaysUseUsername := alwaysUseUsername;
      this.emojiIndex := emojiIndex;
    }

    /** `_get_author`. */
    method GetAuthor(p: Person) returns (u: Models.User)
      modifies cache
      ensures (cache.State(), u) == AuthorStep(old(cache.State()), guild.directory, p, alwaysUseUsername)
    {
      if p.id in cache.authors {
        return cache.authors[p.id];
      }
      if p.kind.BareUser? && p.id !in cache.members {
        var fetched := SafeFetch(guild.directory, p.id);
        cache.members := cache.members[p.id := fetched.GetOr(p)];
      }
      var q := if p.id in cache.members then cache.members[p.id] else p;
      u := ProjectUser(q, alwaysUseUsername);
      cache.authors := cache.authors[q.id := u];
    }

    /** `_get_reaction_user`. */
    method GetReactionUser(p: Person) returns (u: Models.ReactionUser)
      modifies cache
      ensures (cache.State(), u) == ReactionUserStep(old(cache.State()), guild.directory, p, alwaysUseUsername)
    {
      if p.id in cache.reactionUsers {
        return cache.reactionUsers[p.id];
      }
      if p.kind.BareUser? && p.id !in cache.members {
        var fetched := SafeFetch(guild.directory, p.id);
        cache.members := cache.members[p.id := fetched.GetOr(p)];
      }
      var q := if p.id in cache.members then cache.members[p.id] else p;
      u := ProjectReactionUser(q, alwaysUseUsername);
      cache.reactionUsers := cache.reactionUsers[q.id := u];
    }

    /** The mention loop of `get_message`, reassigning `content`. */
    method RewriteMentions(content: string) returns (out: string)
      modifies cache
      ensures (cache.State(), out) == RewriteFold(old(cache.State()), guild.directory, Mentions.Matches(content),
                                                  content, alwaysUseUsername)
    {
      ghost var c0 := cache.State();
      var ms := Mentions.Matches(content);
      out := content;
      for i := 0 to |ms|
        invariant (cache.State(), out) == RewriteFold(c0, guild.directory, ms[..i], content, alwaysUseUsername)
      {
        ghost var c, s := cache.State(), out;
        var who := SafeFetch(guild.directory, ms[i].id);
        if who.Some? {
          var u := GetAuthor(who.value);
          out := Mentions.Replace(out, ms[i].token, "@" + u.name);
        }
        RewriteFoldSnoc(c0, guild.directory, ms, i, content, alwaysUseUsername, c, s);
      }
      WholePrefix(ms);
    }

    /** `_get_embeds`: one converted embed per source embed, in order; the cache is not used. */
    method GetEmbeds(es: seq<SourceEmbed>) returns (r: seq<Models.Embed>)
      ensures |r| == |es|
      ensures forall i :: 0 <= i < |es| ==> r[i] == ConvertEmbed(es[i])
    {
      r := [];
      for i := 0 to |es|
        invariant |r| == i
        invariant forall j :: 0 <= j < i ==> r[j] == ConvertEmbed(es[j])
      {
        r := r + [ConvertEmbed(es[i])];
      }
    }

    /** The users of one reaction, in the order the platform lists them. */
    method GetReactionUsers(ps: seq<Person>) returns (r: seq<Models.ReactionUser>)
      modifies cache
      ensures (cache.State(), r) == ReactionUsersFold(old(cache.State()), guild.directory, ps, alwaysUseUsername)
    {
      ghost var c0 := cache.State();
      r := [];
      for i := 0 to |ps|
        invariant (cache.State(), r) == ReactionUsersFold(c0, guild.directory, ps[..i], alwaysUseUsername)
      {
        ghost var c := cache.State();
        var u := GetReactionUser(ps[i]);
        ReactionUsersFoldSnoc(c0, guild.directory, ps, i, c, r, alwaysUseUsername);
        r := r + [u];
      }
      WholePrefix(ps);
    }

    /** `_get_reactions`. */
    method GetReactions(rs: seq<SourceReaction>) returns (r: seq<Models.Reaction>)
      modifies cache
      ensures (cache.State(), r) == ReactionsFold(old(cache.State()), guild.directory, rs, alwaysUseUsername, emojiIndex)
    {
      ghost var c0 := cache.State();
      r := [];
      for i := 0 to |rs|
        invariant (cache.State(), r) == ReactionsFold(c0, guild.directory, rs[..i], alwaysUseUsername, emojiIndex)
      {
        ghost var c := cache.State();
        var users := GetReactionUsers(rs[i].users);
        ReactionsFoldSnoc(c0, guild.directory, rs, i, c, r, alwaysUseUsername, emojiIndex);
        r := r + [Models.Reaction(EmojiOf(rs[i].emoji, emojiIndex), rs[i].count, users)];
      }
      WholePrefix(rs);
    }

    /** The `mentions` list of `get_message`. */
    method GetMentions(ps: seq<Person>) returns (r: seq<Models.User>)
      modifies cache
      ensures (cache.State(), r) == AuthorsFold(old(cache.State()), guild.directory, ps, alwaysUseUsername)
    {
      ghost var c0 := cache.State();
      r := [];
      for i := 0 to |ps|
        invariant (cache.State(), r) == AuthorsFold(c0, guild.directory, ps[..i], alwaysUseUsername)
      {
        ghost var c := cache.State();
        var u := GetAuthor(ps[i]);
        AuthorsFoldSnoc(c0, guild.directory, ps, i, c, r, alwaysUseUsername);
        r := r + [u];
      }
      WholePrefix(ps);
    }

    /** `get_message`. */
    method GetMessage(m: SourceMessage) returns (msg: Models.Message)
      modifies cache
      ensures (cache.State(), msg) == MessageStep(old(cache.State()), guild.directory, m, alwaysUseUsername, emojiIndex)
    {
      var author := GetAuthor(m.author);
      var content := RewriteMentions(m.content);
      var embeds := GetEmbeds(m.embeds);
      var reactions := GetReactions(m.reactions);
      var mentions := GetMentions(m.mentions);
      assert embeds == ConvertEmbeds(m.embeds);
      msg := Models.Message(
        Numeral(m.id, Dec),
        Models.MessageTypeName(m.typeCode),
        Formats.FormatTime(m.createdAt),
        if m.editedAt.Some? then Some(Formats.FormatTime(m.editedAt.value)) else None,
        m.pinned,
        content,
        author,
        ProjectAttachments(m.attachments),
        embeds,
        ProjectStickers(m.stickers),
        reactions,
        mentions,
        Models.Absent);
      if m.reference.Some? {
        msg := msg.(reference := Models.Present(ProjectReference(m.reference.value)));
      }
    }

    /** `_get_messages`. */
    method GetMessages(h: seq<SourceMessage>) returns (r: seq<Models.Message>)
      modifies cache
      ensures (cache.State(), r) == MessagesFold(old(cache.State()), guild.directory, h, alwaysUseUsername, emojiIndex)
    {
      ghost var c0 := cache.State();
      r := [];
      for i := 0 to |h|
        invariant (cache.State(), r) == MessagesFold(c0, guild.directory, h[..i], alwaysUseUsername, emojiIndex)
      {
        r := AppendNext(c0, h, i, r);
      }
      WholePrefix(h);
    }

    /** One pass of the `_get_messages` loop: the record of `h[i]` is appended. */
    method AppendNext(ghost c0: CacheState, h: seq<SourceMessage>, i: nat, done: seq<Models.Message>)
      returns (r: seq<Models.Message>)
      requires i < |h|
      requires (cache.State(), done) == MessagesFold(c0, guild.directory, h[..i], alwaysUseUsername, emojiIndex)
      modifies cache
      ensures (cache.State(), r) == MessagesFold(c0, guild.directory, h[..i + 1], alwaysUseUsername, emojiIndex)
    {
      ghost var c := cache.State();
      var msg := GetMessage(h[i]);
      MessagesFoldSnoc(c0, guild.directory, h, i, c, done, alwaysUseUsername, emojiIndex);
      r := done + [msg];
    }

    /** `export`; `now` is the clock reading, already in UTC. */
    method Export(h: seq<SourceMessage>, now: DateTime) returns (r: Result<Models.Export, ExportError>)
      modifies cache
      ensures channel.None? ==> r == Err(NoChannel) && cache.State() == old(cache.State())
      ensures channel.Some? ==>
        (cache.State(), r) == ExportStep(old(cache.State()), channel.value, guild, h, now, alwaysUseUsername, emojiIndex)
    {
      if channel.None? {
        return Err(NoChannel);
      }
      var messages := GetMessages(h);
      var ch :- ChannelSnapshot(channel.value);
      r := Ok(Models.Export(GuildSnapshot(guild), ch, Models.DateRange, Formats.FormatTime(now), messages, |messages|));
    }
  }

  /** `Exporter(...)`: refuses to start without a channel and without a guild. */
  method NewExporter(cache: Cache, channel: Option<SourceChannel>, alwaysUseUsername: bool, guild: Option<SourceGuild>,
                     emojiIndex: map<string, string>) returns (r: Result<Exporter, ExportError>)
    ensures r.Err? <==> channel.None? && guild.None?
    ensures r.Ok? ==>
      && fresh(r.value) && r.value.cache == cache && r.value.channel == channel
      && Ok(r.value.guild) == ResolveGuild(channel, guild)
  {
    var g :- ResolveGuild(channel, guild);
    var e := new Exporter(cache, channel, alwaysUseUsername, g, emojiIndex);
    r := Ok(e);
  }
}
