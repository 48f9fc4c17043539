# live_discord_chat_exporter, modelled in Dafny

The bot watches one Discord guild and keeps a DiscordChatExporter-style
JSON export of each of its channels. Every seven days it runs a full
export. Between full exports it buffers live messages and appends them to
the stored exports every five minutes. This project models the parts of
that bot that decide what ends up in an export.

- **The value normalisers** (`formats.dfy`, `numerals.dfy`):
  - a colour becomes `#RRGGBB`, and a zero colour becomes no colour;
  - a timestamp is written as `Y-m-dTH:M:S.ffff+00:00`, with the fraction
    stripped of trailing zeros and cut to four digits;
  - the legacy discriminator `0` is written `0000`.
- **The memoising user cache** (`entity_cache.dfy`):
  - an author or reaction user is described once and then served from the
    cache;
  - a bare user is first looked up as a guild member, and the lookup is
    remembered;
  - a member's roles drop `@everyone` and are sorted by descending
    position.
- **The message transformer** (`mentions.dfy`, `transformer.dfy`):
  - embeds, reactions, attachments, stickers and references are converted;
  - the content is rewritten mention by mention: a `re.finditer` scan for
    `<@id>` and `<@!id>`, then `str.replace` by `@name` for each member
    that resolves;
  - the `Exporter` object runs these steps one message after another on
    the shared cache.
- **The `MISSING` sentinel** (`json.dfy`, `models.dfy`):
  - every export record has a JSON dump;
  - `_remove_all_missing` deletes the keys whose value is `MISSING`,
    recursively through dicts and lists of dicts.
- **The client state machine** (`client.dfy`):
  - `on_message` buffers each live message by channel;
  - `export_channel` drops an empty export and otherwise stores and counts
    it;
  - the full-export loop has a busy flag, a seven-day watermark and a
    channel filter;
  - the live loop merges the buffers into the stored exports, loading a
    missing export from disk.

The Discord API is a set of values. A guild's members are a map from user
id to a person, where `None` stands for "not found". Each channel history
is a sequence of messages. The clock is a parameter. The exports saved as
files are a map from channel id to export. The emoji index is a map from
glyph to name. `cache.py` is not part of this model. Its `Cache` is taken
to be the three dictionaries the exporter uses: `authors`, `members` and
`reaction_users`.

The model follows the code wherever it differs from what the bot is
described as doing, and in a few places where it is easy to misread:

- **The live merge never deduplicates.** The skip test compares a message
  id string with the last 1000 message records. A string never equals a
  record, so every buffered message is appended (`main.py:110`).
  `Bot.IdDedupMerge` is the id-based merge that the test evidently aims
  at. `Bot.LiteralMergeKeepsRepeat` shows a re-delivered message where the
  two differ, and `Bot.DedupAgreesOnFreshIds` shows that they agree when
  no id repeats.
- **`messageCount` goes stale.** The live merge does not recompute it.
- **`roles` is always written.** A bare user gets `roles: []`; the key is
  never omitted.
- **A zero embed colour is written as `null`.** A Discord `Colour(0)` is
  truthy, so the key is present with a null value rather than left out.
- **A failed full export keeps the bot busy.** When a channel export
  fails, `gather` raises, `currently_exporting` stays `True` and the
  watermark is not advanced, so no later full or live export runs. The
  other channels' exports still run to the end and are stored.
- **The watermark is the time the run ends.** `int(time())` is read again
  after `gather`, not at the gate.
- **`%Y` is not padded.** The year is printed with plain decimal digits,
  as glibc's `strftime` does.
- **An unknown code makes the record fail.** `CHANNEL_TYPES.get` and
  `STICKER_TYPES.get` give `None` for a code missing from their tables.
  `Channel.type` and `Sticker.format` are declared `str`, so pydantic
  rejects the `None` and the channel export or the message raises. The
  model keeps the `None` in the record, because pydantic validation is
  left out.

## Model

| member | source | states |
|---|---|---|
| Formats.ColorValue | exporter.py:126-128 | none exactly for colour 0; otherwise `#` followed by upper-case hex digits whose value is the colour, exactly seven characters below 0x1000000 |
| Formats.Fraction | exporter.py:97 | one to four decimal digits; padded back to four they are the first four of the six microsecond digits; `0` exactly when the microseconds are zero; exactly the first four digits when the fifth or sixth is not zero, and otherwise those four without trailing zeros, or `0` |
| Formats.RStripZeros | exporter.py:97 | `str.rstrip('0')`: the input is the result followed by zeros, and the result does not end in `0` |
| Formats.FormatTimeRoundTrip | exporter.py:94-100 | reading a formatted four-digit-year timestamp back gives every field, with the microseconds cut to whole hundreds |
| Formats.FractionFacts | exporter.py:97 | the stripped and cut `%f` digits are one to four digits, padded back to four they are the first four of the six, `0` exactly when the microseconds are zero, and exactly the digits `CutExact` names |
| Formats.StripCutExact | exporter.py:97 | `rstrip('0')[:4] or '0'` on six digits keeps the first four whole when the fifth or sixth is not zero, and otherwise strips their trailing zeros, giving `0` when none is left |
| Formats.FormatTime | exporter.py:94-100 | the `_get_time` text; `FormatTimeRoundTrip` reads every field back from it, and `Fraction` fixes its fraction digits |
| Formats.StripCutInnerZero | exporter.py:97 | stripping happens before the cut: the digits `120050` give `1200` |
| Formats.StripCutTrailingZeros | exporter.py:97 | the digits `500000` give `5` |
| Formats.StripCutSmall | exporter.py:97 | the digits `000050` give `0000`, not `0` |
| Formats.StripCutZero | exporter.py:97 | the digits `000000` strip to nothing, and `or '0'` gives `0` |
| Formats.SplitParts | exporter.py:95-99 | a stamp built from fields of the printed widths splits back into exactly those fields |
| Formats.Discriminator | exporter.py:149 | never `0`: `0` becomes `0000`, any other discriminator is copied |
| Models.ChannelTypeName | models.py:10-23 | a name exactly for the codes 0-5 and 10-15 |
| Models.MessageTypeName | models.py:25-36 | `Default` exactly for codes outside 1-7, 18 and 19; 19 is `Reply` |
| Models.StickerFormatName | models.py:38-43 | a name exactly for the codes 1-4 |
| Models.ExportDumpFilters | models.py:61-63 | removing `MISSING` from any export's dump succeeds and leaves no `MISSING` anywhere |
| Models.UserKeysAfterFilter | models.py:91-99 | a dumped user keeps its keys in declaration order, with `roles` exactly when it is set |
| Models.UserKeptKeys | models.py:91-99 | of a user's eight entries only `roles` can be `MISSING` |
| Models.EmbedKeysAfterFilter | models.py:107-119 | a dumped embed keeps each optional key exactly when it is set, and always keeps the other six |
| Models.MessageKeysAfterFilter | models.py:166 | a dumped message keeps `reference` exactly when it is set |
| Json.RemoveAllMissing | models.py:49-59 | the in-place key deletion loop computes the recursive filter, or fails when a list holds something other than a dict |
| Json.RemoveAllMissingInList | models.py:55 | the list comprehension computes the filter of every element |
| Json.FilterOkIff | models.py:49-59 | the removal succeeds exactly when every list below the dict holds only dicts |
| Json.ItemsOkIff | models.py:55 | a list is filtered exactly when each element is a dict that can be filtered |
| Json.FilterKeys | models.py:57-58 | the keys left are the keys whose value is not `MISSING`, in their old order |
| Json.FilterKeepsScalars | models.py:50-58 | every scalar entry survives unchanged |
| Json.FilterItemsPointwise | models.py:54-56 | a filtered list has the same length, and each element is the filtered element |
| Json.FilterIsClean | models.py:49-59 | the result holds no `MISSING` at any depth |
| Json.CleanIsFixed | models.py:49-59 | a dict without `MISSING` is left as it is |
| Json.FilterIdempotent | models.py:49-59 | removing twice is removing once |
| Json.KeptKeysMember | models.py:57-58 | a key is kept exactly when some entry has it with a value other than `MISSING` |
| Json.UniqueKeyKept | models.py:57-58 | a key that occurs once is kept exactly when its value is not `MISSING` |
| Json.FilterFailPrefix | models.py:50-55 | once a prefix fails, the whole dict fails |
| EntityCache.SafeFetch | exporter.py:130-137 | no member exactly when the id is unknown or not found; under a consistent directory, a found member has that id and is a guild member |
| EntityCache.InsertByPosition | exporter.py:161 | one insertion keeps the roles a permutation and keeps descending position order |
| EntityCache.SortByPositionSorts | exporter.py:161 | the sort gives a permutation of the roles in descending position order |
| EntityCache.ProjectRoles | exporter.py:156-161 | one role record per role, in order, each carrying the role's id and position |
| EntityCache.UserRoles | exporter.py:153-161 | roles are always present: empty for a bare user; for a member, the projection of a reordering of all its roles but the first, in descending position |
| EntityCache.AuthorStep | exporter.py:139-163 | one `_get_author` call; `AuthorHit`, `AuthorMiss` and `AuthorIdempotent` state it |
| EntityCache.ReactionUserStep | exporter.py:221-236 | one `_get_reaction_user` call; `ReactionUserHit`, `ReactionUserMiss` and `ReactionUserIdempotent` state it |
| EntityCache.RecordMemberFrame | exporter.py:143-145 | only a bare user not yet seen adds an entry: the fetched member, or the user itself; other entries stay |
| EntityCache.AuthorHit | exporter.py:141-142 | a cached author is returned and nothing changes |
| EntityCache.AuthorMiss | exporter.py:143-163 | a miss records the member, describes the subject, stores the description under the id, and keeps the cache consistent |
| EntityCache.AuthorIdempotent | exporter.py:139-163 | asking for the same author again returns the same user and changes nothing |
| EntityCache.ReactionUserHit | exporter.py:223-224 | a cached reaction user is returned and nothing changes |
| EntityCache.ReactionUserMiss | exporter.py:225-236 | a miss records the member and stores the description; the author cache is untouched |
| EntityCache.ReactionUserIdempotent | exporter.py:221-236 | asking again returns the same reaction user and changes nothing |
| EntityCache.FetchedMemberDescribed | exporter.py:143-146 | a bare user who turns out to be a member is described as that member |
| EntityCache.Cache.constructor | main.py:20 | the three dictionaries start empty |
| Mentions.DigitRunMaximal | exporter.py:259 | the digit run is the longest one: each counted character is a digit and the next is not |
| Mentions.TokenAt | exporter.py:259 | a match is at least four characters, is the text at that position, and starts with `<` and ends with `>`; `TokenAtSound` and `TokenAtComplete` state that matches are exactly the `<@!?(\d+)>` tokens, with the id their digits' value |
| Mentions.TokenAtSound | exporter.py:259 | a match is a whole `<@!?(\d+)>` token, and its id is the value of its digits |
| Mentions.TokenAtComplete | exporter.py:259 | every `<@!?(\d+)>` token at a position is the match found there, with the value of its digits |
| Mentions.Matches | exporter.py:259 | the `finditer` scan from the start; each match is at least four characters; `NoMatches`, `MatchesFromFirst` and `MatchesOccur` state which tokens it reports |
| Mentions.MatchesFromFirst | exporter.py:259 | the scan reports the leftmost token at or after its position first, then goes on after that token |
| Mentions.NoMatches | exporter.py:259 | the scan finds nothing exactly when no position starts a mention token |
| Mentions.MatchesOccur | exporter.py:259 | every reported match is a token found in the text at or after the scan's start; `MatchesFromFirst` gives the other direction, that the leftmost token is reported and the scan resumes after it |
| Mentions.TwoMentions | exporter.py:259 | `hi <@12> <@!7>` scans to the two tokens, with ids 12 and 7 |
| Mentions.ReplaceAbsent | exporter.py:264 | replacing a string that does not occur changes nothing |
| Mentions.ReplaceSame | exporter.py:264 | replacing a string by itself changes nothing |
| Mentions.Replace | exporter.py:264 | `str.replace`; `ReplaceAbsent`, `ReplaceSame` and `ReplaceFirst` state what it does |
| Mentions.ReplaceFirst | exporter.py:264 | the text before the first occurrence is kept, that occurrence becomes the replacement, and the text after it is replaced the same way |
| Transformer.WhenTruthy | exporter.py:182-185 | an optional string is kept exactly when it is non-empty |
| Transformer.OrEmpty | exporter.py:170-173 | `x or ''`: empty exactly when the value is none or empty |
| Transformer.ConvertFields | exporter.py:211-215 | one field record per embed field, in order, with name, value and inline flag |
| Transformer.ConvertEmbeds | exporter.py:166-219 | one embed record per embed, in order |
| Transformer.ConvertEmbedSlots | exporter.py:165-219 | each optional embed part is set exactly when the source has it; colour 0 gives a null colour; image is never set; a video uses the proxy URL when non-empty |
| Transformer.EmbedDumpKeys | exporter.py:175-209 | the dumped embed has `color`, `author`, `thumbnail`, `video` and `footer` exactly when the source has them, and never `image` |
| Transformer.EmojiShape | exporter.py:242-247 | a custom emoji keeps its id, name, animation flag and URL; a Unicode emoji has an empty id, no URL, and the index's code or an empty one |
| Transformer.ProjectAttachments | exporter.py:275-280 | one attachment record per attachment, in order |
| Transformer.ProjectStickers | exporter.py:282-287 | one sticker record per sticker, in order |
| Transformer.IdText | exporter.py:293-295 | `str` of an optional id: `None` for none, otherwise digits spelling the id |
| Transformer.AuthorsFold | exporter.py:289 | one user per mentioned person |
| Transformer.ReactionUsersFold | exporter.py:249 | one reaction user per reacting person |
| Transformer.ReactionsFold | exporter.py:239-251 | one reaction record per reaction |
| Transformer.MessagesFold | exporter.py:299-303 | one message record per history message |
| Transformer.ResolveGuild | exporter.py:65-70 | an error exactly when there is neither a channel nor a guild; an explicit guild wins over the channel's guild |
| Transformer.StepsExtend | exporter.py:139-163 | an author or reaction-user step keeps the cache consistent and only adds entries |
| Transformer.AuthorsFoldExtends | exporter.py:289 | mentions only add consistent cache entries |
| Transformer.ReactionUsersFoldExtends | exporter.py:249 | reaction users only add consistent cache entries |
| Transformer.ReactionsFoldExtends | exporter.py:239-251 | reactions only add consistent cache entries |
| Transformer.RewriteFoldExtends | exporter.py:259-264 | the mention rewrite only adds consistent cache entries |
| Transformer.MessageStepExtends | exporter.py:253-297 | a message only adds consistent cache entries |
| Transformer.MessagesFoldExtends | exporter.py:299-303 | a whole history only adds consistent cache entries |
| Transformer.RewriteFold | exporter.py:258-264 | the mention loop; `RewriteResolvedOnly`, `RewriteResolvedStep`, `RewriteUnresolved`, `RewriteNoTokens` and `RewriteFoldExtends` state it |
| Transformer.RewriteResolvedOnly | exporter.py:260-262 | a match the guild does not resolve is skipped: the rewrite over all matches equals the rewrite over the resolved ones |
| Transformer.RewriteResolvedStep | exporter.py:260-264 | a resolved match replaces every occurrence of its token by `@` and the name already filed for that id, or else the name of the member the look-up files |
| Transformer.RewriteUnresolved | exporter.py:259-262 | when no mentioned id resolves, the content and the cache are unchanged |
| Transformer.RewriteNoTokens | exporter.py:258-259 | content without mention tokens is left as it is |
| Transformer.MessageStep | exporter.py:253-297 | one `get_message` call; `MessageStepShape`, `MessageStepId` and `MessageStepExtends` state it |
| Transformer.MessageStepShape | exporter.py:253-297 | the record carries the message's id and the author's cached description; an edit time exactly when edited; one entry per attachment, embed, sticker, reaction and mention; a reference exactly when replying, with `None` for a missing id |
| Transformer.MessageDumpReference | exporter.py:291-295 | the dumped message has `reference` exactly when the message replies |
| Transformer.MessageStepId | exporter.py:267 | the record's id spells the message's id |
| Transformer.MessagesFoldIds | exporter.py:299-303 | the records keep the history's order, id by id |
| Transformer.ExportStep | exporter.py:74-91 | one `export` call; `ExportShape` states it |
| Transformer.ChannelSnapshot | exporter.py:110-117 | `_get_channel`; `ExportShape` states when it fails and which id it carries |
| Transformer.ConvertEmbed | exporter.py:168-217 | one embed; `ConvertEmbedSlots` and `EmbedDumpKeys` state it |
| Transformer.EmojiOf | exporter.py:242-247 | a reaction's emoji; `EmojiShape` states it |
| Transformer.ExportShape | exporter.py:74-91 | an error exactly when the channel has neither parent nor category; otherwise `messageCount` is the number of messages, one per history message in order, with the parent's or else the category's id |
| Transformer.Exporter.constructor | exporter.py:65-71 | stores the cache, channel, guild and name mode |
| Transformer.Exporter.GetAuthor | exporter.py:139-163 | the cache and the user are the author step's |
| Transformer.Exporter.GetReactionUser | exporter.py:221-236 | the cache and the reaction user are the reaction-user step's |
| Transformer.Exporter.RewriteMentions | exporter.py:257-264 | the loop over the scan gives the rewrite fold's cache and content, so unresolved matches are skipped and each resolved one is replaced by `@` and the member's name |
| Transformer.Exporter.GetEmbeds | exporter.py:165-219 | one converted embed per embed, in order, with the cache untouched |
| Transformer.Exporter.GetReactionUsers | exporter.py:249 | the loop gives the reaction-user fold |
| Transformer.Exporter.GetReactions | exporter.py:238-251 | the loop gives the reactions fold |
| Transformer.Exporter.GetMentions | exporter.py:289 | the loop gives the mentions fold |
| Transformer.Exporter.GetMessage | exporter.py:253-297 | author, content rewrite, reactions, then mentions, as in the message step |
| Transformer.Exporter.GetMessages | exporter.py:299-303 | the loop over the history gives the messages fold |
| Transformer.Exporter.Export | exporter.py:74-91 | no channel is an error and leaves the cache alone; otherwise the export step's cache and result |
| Transformer.NewExporter | exporter.py:65-70 | fails exactly when neither a channel nor a guild is given; otherwise a fresh exporter on the resolved guild |
| Bot.EligibleChannels | main.py:75-81 | a channel is exported exactly when it is a text, voice or thread channel, not excluded, readable with history, and joinable if voice |
| Bot.EligibleChannelsOrder | main.py:75-81 | each eligible channel is kept as often as the guild lists it, every other one is dropped, and the guild's order is kept |
| Bot.Trunc | main.py:87 | `int(time())` truncates toward zero |
| Bot.GateAfterAWeek | main.py:68-71 | a full export starts exactly when not busy and at least 604800 seconds after the watermark |
| Bot.BufferAllOrder | main.py:42-44 | each channel's buffer is its earlier buffer followed by that channel's messages in arrival order |
| Bot.EmptyChannelSkipped | main.py:49-50 | an empty channel is neither stored nor counted, and the recorded failure stays |
| Bot.NonEmptyChannelSaved | main.py:51-54 | a channel with messages is stored under its id with all its messages and counted once; other stored exports and the recorded failure stay |
| Bot.ExportAll | main.py:83-86 | the channels exported one after another; `ExportAllBounds`, `ExportAllIgnoresFailure` and `ExportAllFirstFailure` state it |
| Bot.ChannelStep | main.py:46-54 | one `export_channel` call; `EmptyChannelSkipped` and `NonEmptyChannelSaved` state it |
| Bot.ExportAllIgnoresFailure | main.py:85-86 | a failure does not stop the other channels: a run that starts with a failure recorded stores, counts and caches exactly what one without it does, and reports that failure |
| Bot.ExportAllFirstFailure | main.py:86 | once a channel fails, its failure is the one the whole run reports |
| Bot.ExportAllBounds | main.py:83-86 | the progress count grows by at most one per channel; stored exports are old ones or exports of the channels gone through |
| Bot.LiveMerged | main.py:99-112 | the saves after the live loop; `LiveMergedAt` and `LiveMergeFacts` state them |
| Bot.BufferAll | main.py:42-44 | the buffers after a stream of live messages; `BufferAllOrder` states them |
| Bot.IdDedupMerge | main.py:109-112 | the id-based merge the skip test aims at; `DedupAgreesOnFreshIds` and `LiteralMergeKeepsRepeat` compare it with the bot's append |
| Bot.MergeStep | main.py:99-112 | merging one more buffered channel changes only that channel's entry |
| Bot.LiveMergedAt | main.py:99-112 | after the merge a channel has an entry exactly when it had a stored export, or was buffered and has a saved one; a buffered channel's entry is its export with the buffer appended, any other keeps its stored export |
| Bot.KeptStored | main.py:51-54 | an export with messages is stored under the channel id and counted once; other stored exports and the recorded failure stay |
| Bot.LiveMergeFacts | main.py:99-115 | a buffered channel with an export ends with its old messages and then the whole buffer, and keeps its old count; one without an export gets no entry; other entries stay; no stored message is lost |
| Bot.Window | main.py:110 | `messages[-1000:]` takes only stored messages |
| Bot.DedupAgreesOnFreshIds | main.py:109-112 | when no id repeats, the id-based dedup merge and the plain append agree |
| Bot.LiteralMergeKeepsRepeat | main.py:110-112 | a re-delivered newest message is appended again by the bot, and dropped by the id-based merge |
| Bot.Client.constructor | main.py:18-30 | empty buffers and saves, not busy, the watermark from the save file, and a live exporter on the shared cache |
| Bot.Client.OnMessage | main.py:39-44 | the message goes through the live exporter's step and to the end of its channel's buffer; nothing else changes |
| Bot.Client.Enqueue | main.py:42-44 | a channel seen for the first time gets a buffer holding just the message; otherwise the message is appended |
| Bot.Client.ExportChannel | main.py:46-55 | the cache, saves and count are the channel step's; an error exactly when the step fails |
| Bot.Client.KeepExport | main.py:49-54 | an export with no messages changes nothing; any other is stored under the channel id and counted |
| Bot.Client.FullExportLoop | main.py:65-90 | with the gate shut nothing changes; otherwise every eligible channel is exported in order and the first failure is reported; on success the busy flag clears and the watermark moves to the time read after the run; on a failure the flag stays set and the watermark stays |
| Bot.Client.ExportChannels | main.py:83-86 | the cache, saves and count are those of exporting every channel in order; the result is the run's first failure, or success; the buffers, the flag and the watermark are untouched |
| Bot.Client.ExportNext | main.py:85-86 | exporting the next channel extends the run by that channel; its failure becomes the run's when none came before |
| Bot.Client.LiveExportLoop | main.py:92-115 | when busy or with no buffers nothing changes; otherwise the saves become the live merge of the buffers and the buffers are emptied |
| Bot.Client.MergeChannel | main.py:99-112 | a channel with neither a stored nor a saved export is skipped; otherwise its export, loaded if need be, gets the whole buffer appended |

## Left out

- File I/O is not modelled: reading `save.json`, writing export files and writing the watermark. The disk is a map argument to the live loop.
- `create_chatanalytics` is left out. It starts an external process.
- Scheduling is not modelled: the `@loop` timers, `_ready.wait()` and the semaphore. Each loop is modelled as one tick.
- Concurrency is not modelled. `gather` runs channel exports concurrently, raises the first exception to occur, and lets the other exports finish. The model runs every export one after another, in guild order, and reports the first failure in that order in place of the first in time. In the bot, exports still running when `gather` raises may finish after `full_export_loop` has returned.
- `on_ready` is reduced to the exporter setup in the constructor. The guild lookup, and the exit when the guild is missing, are left out.
- `cache.py` is not part of this model. The cache is the three dictionaries the exporter touches.
- The Discord API calls are inputs: `get_member`, `fetch_member` and `NotFound` are a directory map, and history, reactions and users are sequences.
- `EMOJI_INDEX` is a parameter.
- The DEBUG timers and `print` output are left out.
- Mentions.DigitRunMaximal: only ASCII digits count as `\d`. Other Unicode decimal digits, which Python's `re` also matches, are not modelled.
- EntityCache.SortByPositionSorts: it does not prove that `sorted` is stable. Roles with equal positions may come out in any order.
- Formats.FormatTimeRoundTrip: it holds only for years 1000 and later. The conversion to UTC and the inner workings of `strftime` are not modelled; the input is already a UTC time.
- The export is stamped with one clock value per full export, rather than one call to `datetime.now()` per channel.
- Pydantic validation of the records is left out. That includes what `Channel.type: str` and `Sticker.format: str` would do with `None`.
- `Export.model_validate` on a file that does not parse is left out. The disk map holds exports already read.
