# DiscordLink core, modelled in Dafny

DiscordLink is an Eco server plugin that connects the game's chat and
systems to a Discord server. This project models four of its parts:

- **The plugin configuration** (`DLConfig`). It covers:
  - the settings record;
  - the flat registry of every configured channel link;
  - the lookups over that registry;
  - how `Save` repairs bad settings and takes a snapshot;
  - how edits to the settings are handled;
  - the static part of the configuration check;
  - the channel-link part of that check.
- **The Discord chat feed** (`DiscordChatFeed`). It covers:
  - when the feed runs;
  - which chat links a Discord message is relayed through to Eco;
  - the fan-out of a relayed message to the chat links of other Discord guilds;
  - the guild label;
  - the operation counter.
- **The command gate** (`DiscordCommands`). It covers:
  - the user-permission and channel checks, and their order;
  - the denial and error replies;
  - how a reply is split into messages, including the text fallback for channels where embeds may not be posted.
- **The text builders** (`MessageBuilder`). They cover:
  - the plain-text rendering of an embed;
  - the `dd:hh:mm:ss` time span;
  - the trade-offer listings, as Discord embed fields and as Eco chat text.

The code is split into six modules:

| file | module | contents |
|---|---|---|
| `common.dfy` | `Common` | the .NET string and number behaviour the plugin relies on: `Trim`, case-insensitive comparison, `ToString()` and `ToString("00")`, `Join` and `LastIndexOf`, plus a `Split` that only the round-trip lemmas use |
| `links.dfy` | `Links` | channel links as one datatype tagged by kind (plain, chat, currency), plus the LINQ searches `FirstOrDefault` and `Where` |
| `config.dfy` | `Config` | the configuration record, and a `DLConfig` class whose methods change its data, snapshot, registry and effect trace in place |
| `chatfeed.dfy` | `ChatFeed` | a `DiscordChatFeed` class that holds the operation counter and the trace of messages sent |
| `commands.dfy` | `Commands` | the command gate and the reply splitting |
| `messagebuilder.dfy` | `MessageBuilder` | the text builders |

Imperative source code stays imperative here. Loops are methods with invariants, and each method is proved against a specification function. The properties of that function are then proved as lemmas.

Where a loop's body needed a proof of its own, the loop was moved into a small helper method with its own contract:
- `ForwardThroughAdmitted`, `ForwardToOtherGuilds`, `GroupsToFields`;
- `AppendFields`, `AppendGroups`, `AppendGroup`, `AppendLines`, `FieldBody`.

`GetTimespan` has no loop. Its four component steps share the helpers `AppendComponent` and `AppendIfSelected`.

Effects on Discord and on the game are appended to a trace instead. These effects are messages sent, the settings persisted, a restart, a verification and the change event.

## Model

| member | source | states |
|---|---|---|
| Config.AllLinksContents | DiscordLink/Source/Systems/Config.cs:327-343 | the registry is the thirteen collections one after the other: its length is the sum of theirs, it holds exactly their links, the chat links come first and the command-channel links last |
| Config.DLConfig.BuildChannelLinkList | DiscordLink/Source/Systems/Config.cs:327-343 | after a rebuild the registry equals the concatenation of the collections of the current data (so a second rebuild gives the same list) |
| Config.DLConfig.constructor | DiscordLink/Source/Systems/Config.cs:88-108 | Initialize: the snapshot is a copy of the loaded settings and the registry is built from them |
| Config.ChannelLinkForDiscordChannel | DiscordLink/Source/Systems/Config.cs:54-57 | the result is a valid registry link with that channel name, and no earlier registry link is both valid and so named; there is none exactly when no link in the registry is both valid and so named |
| Config.SingleLookupsAreFirstMatches | DiscordLink/Source/Systems/Config.cs:59-66 | the Eco-channel and Discord-channel chat lookups return the first of all chat links that are valid and match by Eco channel, or by Discord channel name or id, ignoring case |
| Links.FirstWhereIsHeadOfFilter | DiscordLink/Source/Systems/Config.cs:54-66 | FirstOrDefault with a test is the head of Where with the same test, or nothing |
| Links.FilterContents | DiscordLink/Source/Systems/Config.cs:59-66 | Where keeps exactly the elements that pass its test |
| Config.EndsWithPortIff | DiscordLink/Source/Systems/Config.cs:386-396 | an address ends with a port exactly when some colon is followed only by digits (a trailing colon counts) |
| Config.PortSuffixIsRecognised | DiscordLink/Source/Systems/Config.cs:386-396 | `host:port` and `host:` are recognised; an address without a colon (the empty one included) is not |
| Config.CorrectCurrencyLinks | DiscordLink/Source/Systems/Config.cs:217-237 | the currency links come out as CorrectedCurrencyLinks says, and a correction is reported exactly when some link had a negative minted or personal count or a top-holder count outside 0 to the limit |
| Config.DLConfig.Save | DiscordLink/Source/Systems/Config.cs:171-244 | the data becomes the corrected data, the snapshot becomes that data, one persist effect is added, and the result is true exactly when neither a link nor a setting needed correcting |
| Config.CorrectedFieldsPassTheirChecks | DiscordLink/Source/Systems/Config.cs:175-237 | after Save the bot name and invite message are non-empty, the trade display limit is non-negative, an empty command prefix is the snapshot's, every currency link passes its checks, and the token, server and chat links are untouched |
| Config.CorrectionNeededIffChanged | DiscordLink/Source/Systems/Config.cs:173-243 | Save reports a correction exactly when it changed a field other than the trade display limit (whose reset is not counted) |
| Config.SecondSaveMakesNoCorrection | DiscordLink/Source/Systems/Config.cs:171-244 | a second Save right after the first needs no correction and changes nothing |
| Config.DefaultInviteMessagePassesCheck | DiscordLink/Source/Systems/Config.cs:210-215 | an invite message Save filled in contains the invite token, so the invite check accepts it |
| Config.DLConfig.HandleConfigChanged | DiscordLink/Source/Systems/Config.cs:142-169 | the settings are saved and the registry rebuilt; then a token or server change leads to a restart only, otherwise verification and the change event follow only when Save corrected nothing |
| Config.RestartSkipsVerification | DiscordLink/Source/Systems/Config.cs:146-168 | a restart happens exactly when token or server differ from the snapshot; verification happens exactly when there is no restart and no correction; the change event comes exactly with verification |
| Config.CorrectionRoundTerminates | DiscordLink/Source/Systems/Config.cs:142-169 | the round that follows a correction, on the corrected settings, verifies and notifies |
| Config.DLConfig.HandleCollectionChanged | DiscordLink/Source/Systems/Config.cs:126-140 | an add, remove or replace gets the full change handling; any other edit gets only a save, which leaves the registry as it was (see Left out for the shared link objects) |
| Config.StaticVerificationErrors | DiscordLink/Source/Systems/Config.cs:246-272 | no error exactly when connected and, if static settings are checked, the server name and token are set and the invite message is blank or holds the token; each error is reported exactly when its condition holds, at most once, in the order connection, server, token, invite |
| Config.UnsetDiscordServerGoesUnreported | DiscordLink/Source/Systems/Config.cs:257 | settings with the Discord server left empty but an Eco server name set pass the static check without error |
| Config.CorrectedStaticErrors | DiscordLink/Source/Systems/Config.cs:254-272 | the same check reading the Discord server setting: the server error is reported exactly when that setting is blank; the errors keep the same order |
| Config.CorrectedCheckReportsUnsetDiscordServer | DiscordLink/Source/Systems/Config.cs:257-260 | the corrected check reports exactly the missing server for the same settings |
| Config.VerifyChannelLinksAsWritten | DiscordLink/Source/Systems/Config.cs:293-322 | links are told apart by identity (their registry position), not by settings: the verified list holds each valid link once, in registry order; all are verified exactly when every link is valid; the unverified list is always empty |
| Config.SameSettingsTwiceVerify | DiscordLink/Source/Systems/Config.cs:295-307 | two link objects with equal settings are both verified and the pass reports that all links verified |
| Config.UnverifiedListStaysEmpty | DiscordLink/Source/Systems/Config.cs:305-318 | with one unresolved link the pass reports that not all links verified but lists none as unverified |
| Config.UnverifiedLinks | DiscordLink/Source/Systems/Config.cs:311-318 | the intended list holds exactly the links that did not resolve, and is empty exactly when every link resolved |
| ChatFeed.DiscordChatFeed.ShouldRun | DiscordLink/Source/Modules/Feeds/DiscordChatFeed.cs:25-33 | true exactly when some chat link is valid and relays Discord to Eco (DiscordToEco or Duplex) |
| ChatFeed.DiscordChatFeed.UpdateInternal | DiscordLink/Source/Modules/Feeds/DiscordChatFeed.cs:35-46 | a trigger that is not a message changes nothing; a message is forwarded once, in order, per valid link of its channel whose direction is EcoToDiscord or Duplex, and the counter grows by that number |
| ChatFeed.DiscordChatFeed.ForwardThroughAdmitted | DiscordLink/Source/Modules/Feeds/DiscordChatFeed.cs:41-45 | the loop of UpdateInternal: the sends of one forward per admitted link, in order |
| ChatFeed.RelaySendsEcoChannels | DiscordLink/Source/Modules/Feeds/DiscordChatFeed.cs:41-52 | the Eco messages of an update are one per relaying link, carrying that link's Eco channel, in order |
| ChatFeed.EcoToDiscordLinkCarriesDiscordMessages | DiscordLink/Source/Modules/Feeds/DiscordChatFeed.cs:29-42 | with an inbound link on #trade and an outbound-only link on #general, a message on #general is relayed into Eco through the outbound-only link |
| ChatFeed.RelayLinks | DiscordLink/Source/Modules/Feeds/DiscordChatFeed.cs:29-42 | the intended relay links are exactly the chat links that serve the message's channel (valid, named by name or id) and carry Discord to Eco, and there are some only if ShouldRun holds |
| ChatFeed.CorrectedUpdateIgnoresOutboundLink | DiscordLink/Source/Modules/Feeds/DiscordChatFeed.cs:42 | with the intended filter, the same message is relayed nowhere |
| ChatFeed.AdmittedIsFilter | DiscordLink/Source/Modules/Feeds/DiscordChatFeed.cs:42 | the links UpdateInternal admits are the Where of its direction test (EcoToDiscord or Duplex) over the channel's links |
| ChatFeed.ExampleLinksOfGeneral | DiscordLink/Source/Modules/Feeds/DiscordChatFeed.cs:40 | the channel lookup of the example returns only the #general link |
| ChatFeed.DiscordChatFeed.ForwardMessageToEcoChannel | DiscordLink/Source/Modules/Feeds/DiscordChatFeed.cs:48-75 | one Eco message, then the fan-out to the links of that Eco channel, and the counter grows by exactly one |
| ChatFeed.DiscordChatFeed.ForwardToOtherGuilds | DiscordLink/Source/Modules/Feeds/DiscordChatFeed.cs:57-72 | the sends are the fan-out of the links in order, skipping those in the message's own guild |
| ChatFeed.EcoSendsOfForward | DiscordLink/Source/Modules/Feeds/DiscordChatFeed.cs:51-72 | a forward to Eco sends exactly one Eco message, to its Eco channel |
| ChatFeed.FanOutPostsElsewhere | DiscordLink/Source/Modules/Feeds/DiscordChatFeed.cs:57-72 | every fan-out post goes to a link outside the origin guild, is a Discord post of the message, and carries the author label |
| ChatFeed.FanOutReachesOtherGuilds | DiscordLink/Source/Modules/Feeds/DiscordChatFeed.cs:57-72 | every link outside the origin guild gets a post, whatever its direction |
| ChatFeed.FanOutLength | DiscordLink/Source/Modules/Feeds/DiscordChatFeed.cs:57-72 | the posts and the skipped origin-guild links together number the links |
| ChatFeed.EcoSendsOfFanOut | DiscordLink/Source/Modules/Feeds/DiscordChatFeed.cs:57-72 | the fan-out sends nothing to Eco |
| ChatFeed.AuthorLabelParts | DiscordLink/Source/Modules/Feeds/DiscordChatFeed.cs:66 | the author label is `[`, the guild label, `] `, and the user name, each at its offset |
| ChatFeed.GuildLabelIgnoresNameOfKnownGuilds | DiscordLink/Source/Modules/Feeds/DiscordChatFeed.cs:77-90 | the three known guild ids get their fixed short label whatever their name; any other guild goes by its name |
| ChatFeed.DiscordChatFeed.ForwardMessageToDiscordChannel | DiscordLink/Source/Modules/Feeds/DiscordChatFeed.cs:92-99 | one Discord post to the channel, with global mentions allowed exactly when the link's permission is AnyUser |
| Commands.IsCommandAllowedForUser | DiscordLink/Source/Commands/DiscordCommands.cs:113-124 | a User command always passes; an Admin command passes exactly for an admin |
| Commands.IsCommandAllowedInChannel | DiscordLink/Source/Commands/DiscordCommands.cs:126-148 | allowed exactly in a direct message, for an admin, when no command channel is valid, or when some configured link, valid or not, names the channel |
| Commands.InvalidLinkStillOpensItsChannel | DiscordLink/Source/Commands/DiscordCommands.cs:137-144 | a link that does not resolve still opens the channel it names while another link resolves |
| Commands.ExecuteCommand | DiscordLink/Source/Commands/DiscordCommands.cs:29-59 | the body runs exactly when both checks pass; a failed permission check sends only the permission denial, even if the channel would also be refused; a failed channel check sends only the channel denial; after the body only its error, if any, is replied |
| Commands.AdminsAndDirectMessagesRun | DiscordLink/Source/Commands/DiscordCommands.cs:113-148 | admins always pass both checks, a User command in a direct message always runs, an Admin command from a non-admin never does |
| Commands.PermissionDenialNamesPermission | DiscordLink/Source/Commands/DiscordCommands.cs:36 | the permission denial names the required permission right after its opening words |
| Commands.PermissionDenialListsRoles | DiscordLink/Source/Commands/DiscordCommands.cs:35-36 | the permission denial contains every admin role, or "No admin roles configured" when there is none |
| Commands.ValidChannelNamesContents | DiscordLink/Source/Commands/DiscordCommands.cs:42 | the listed channel names are exactly the names of the valid command-channel links |
| Commands.ChannelDenialListsValidChannels | DiscordLink/Source/Commands/DiscordCommands.cs:42-43 | the channel denial contains the name of every valid command channel |
| Commands.ChannelDenialIsNeverEmpty | DiscordLink/Source/Commands/DiscordCommands.cs:40-43 | whenever the channel check refuses, the denial has at least one channel to list |
| Commands.Respond | DiscordLink/Source/Commands/DiscordCommands.cs:63-86 | the replies sent are those Replies describes |
| Commands.CombinedReply | DiscordLink/Source/Commands/DiscordCommands.cs:69-73 | with at most one text part and at most one embed part, one reply carries the whole text and the embed part if there is one |
| Commands.PartReplies | DiscordLink/Source/Commands/DiscordCommands.cs:74-85 | otherwise each text part is sent alone in order, then each embed part alone in order |
| Commands.RespondToCommand | DiscordLink/Source/Commands/DiscordCommands.cs:88-105 | without an embed, or with one the channel may show, the text and the embed are sent; otherwise the text, a newline and the embed as text are sent with no embed |
| Commands.FallbackSendsNoEmbed | DiscordLink/Source/Commands/DiscordCommands.cs:101-104 | the fallback attaches no embed to any reply, and a single reply carries the text followed by the embed as text |
| MessageBuilder.EmbedToText | DiscordLink/Utilities/MessageBuilder.cs:223-248 | the result is the trimmed text block, title block, field blocks in order and footer |
| MessageBuilder.AppendFields | DiscordLink/Utilities/MessageBuilder.cs:237-240 | the field loop appends every field's block, in order |
| MessageBuilder.FieldBlocksInOrder | DiscordLink/Utilities/MessageBuilder.cs:237-240 | each field's block sits right after the blocks of the fields before it |
| MessageBuilder.EmbedToTextOfTextOnly | DiscordLink/Utilities/MessageBuilder.cs:225-247 | without an embed the rendering is the text trimmed, and empty text gives "" |
| MessageBuilder.GetTimespan | DiscordLink/Utilities/MessageBuilder.cs:189-218 | the result is the selected components, day to second, each as at least two digits, joined by ":" |
| MessageBuilder.TimespanRoundTrip | DiscordLink/Utilities/MessageBuilder.cs:189-218 | splitting the time span at ":" gives one digit string per selected component, which reads back as that component's value |
| MessageBuilder.TimespanComponentRanges | DiscordLink/Utilities/MessageBuilder.cs:196-216 | hours are below 24, minutes and seconds below 60 |
| MessageBuilder.DefaultTimespanIsExact | DiscordLink/Utilities/MessageBuilder.cs:173-189 | the default flag selects all four components, and days, hours, minutes and seconds add back up to the input |
| MessageBuilder.DiscordLineStruckIffSoldOut | DiscordLink/Utilities/MessageBuilder.cs:462-473 | a Discord line is struck through exactly when the quantity is 0; otherwise it starts with the quantity prefix and "$" |
| MessageBuilder.EcoLineIsDiscordLineWithAt | DiscordLink/Utilities/MessageBuilder.cs:528-539 | an Eco line is the Discord line with "at " before the label, except that quantity 0 colours it yellow instead of striking it through |
| MessageBuilder.TradeOffersToFields | DiscordLink/Utilities/MessageBuilder.cs:428-460 | the fields are those TradeFields describes: buying groups first, then selling groups |
| MessageBuilder.GroupsToFields | DiscordLink/Utilities/MessageBuilder.cs:431-444 | one group loop gives one field per group, in order, titled with the heading and the group key, its body the group's descriptions one per line |
| MessageBuilder.FieldBody | DiscordLink/Utilities/MessageBuilder.cs:438-442 | the body is each description followed by a newline |
| MessageBuilder.TradeFieldBodies | DiscordLink/Utilities/MessageBuilder.cs:428-460 | each field's title names "Buying for" or "Selling for" its group, and its body splits back into the group's descriptions |
| MessageBuilder.FormatTradesForDiscord | DiscordLink/Utilities/MessageBuilder.cs:401-426 | with offers, the embed is titled for the match and holds the fields and the footer; with none, only the "no offers" title |
| MessageBuilder.FormatTradesForEco | DiscordLink/Utilities/MessageBuilder.cs:478-526 | the message is the listing's lines, each followed by a newline |
| MessageBuilder.AppendGroups | DiscordLink/Utilities/MessageBuilder.cs:491-519 | a group loop appends the lines of every group, in order |
| MessageBuilder.AppendGroup | DiscordLink/Utilities/MessageBuilder.cs:498-503 | one group appends its heading, its descriptions and an empty line |
| MessageBuilder.EcoListingShape | DiscordLink/Utilities/MessageBuilder.cs:489-524 | no groups give the single "no offers" line; otherwise the listing starts with the first buying heading (or selling heading when nothing is bought) and ends with an empty line |
| MessageBuilder.GroupLinesLength | DiscordLink/Utilities/MessageBuilder.cs:491-519 | each group takes two lines plus one per offer |
| Common.TrimIsWhiteSpaceFree | DiscordLink/Utilities/MessageBuilder.cs:247 | Trim returns a piece of its input that neither starts nor ends with white space, and is empty exactly for blank input |
| Common.PadTwoRoundTrip | DiscordLink/Utilities/MessageBuilder.cs:194 | the "00" format reads back as the number |
| Common.SplitJoin | DiscordLink/Utilities/MessageBuilder.cs:199-200 | splitting at the separator undoes a join of pieces that do not contain it |
| Common.JoinContainsParts | DiscordLink/Source/Commands/DiscordCommands.cs:35 | every part of a join appears in it |

## Left out

- I/O is not modelled: the Discord client, chat sends, persistence, restart, logging and the `OnConfigChanged`/`OnConfigSaved` events. Each is either a parameter or an effect added to a trace. The fire-and-forget sends and the async event handlers are concurrency, which is not modelled.
- `ChannelLink.IsValid` is not modelled. It resolves a link against live Discord state, so it is a `valid` field of each link.
- `ChannelLink.IsChannel` is not part of this model. It is taken to match the channel's name or id, ignoring case, like the lookup at Config.cs:63-66.
- `ChannelLink.MakeCorrections` and `Initailize` are not part of this model. `Save` receives, as the input `linkCorrected`, whether any link reported a correction.
- The all-matches lookups `ChatLinksForDiscordChannel` and `ChatLinksForEcoChannel` are not part of this model. They are taken to be the Where filter of the single-link tests at Config.cs:59-66.
- `DiscordLinkEmbed.AsText` is not part of this model. It is taken to be `EmbedToText("", embed)`.
- `SplitStringBySize` and `BuildDiscordEmbeds` are not modelled. Their results are parameters of `Respond` and `RespondToCommand`, and no embed is taken to build into no parts.
- These values are parameters: `GetStandardEmbedFooter` (it reads the clock and the server name), and the Eco markup helpers `Text.Bold`, `Text.Color` and `StripTags`.
- `FormatMessageForEco`, `FormatMessageForDiscord` and `GetReadableContent` are not modelled. A send records the message and the link settings it is formatted with.
- `DLConstants` is not part of this model. The invite token and the top-holder display limit are a `Constants` parameter.
- The idempotence lemmas for `Save` assume the top-holder display limit is at least 3. The reset value 3 must pass its own check.
- `PostConnectionInitialize`, `Echo`, the report commands and the delegating command bodies are not modelled. Neither are the functions that read live server state or the clock.
- Null strings are treated as the empty string. The emptiness checks (IsNullOrEmpty, IsNullOrWhiteSpace) do not tell the two apart, so nothing is lost there.
- HandleConfigChanged: the token and server comparisons at Config.cs:146-147 use `!=`, so a change between null and "" counts as a change in the source, and then a restart. With null taken as "", the model sees no change.
- Save: the command-prefix comparison at Config.cs:183 uses `!=` in the same way. In the source, a prefix that goes from "" to null, or back, is reset to the default and counts as a correction. The model sees no change and leaves the prefix empty.
- HandleCollectionChanged: the registry holds link values, not the configuration's link objects. After a Move or Reset event the registry is not rebuilt. In the source, the currency links in the registry are the objects Save repairs in place, so the registry sees those repairs; in the model it keeps the currency links as they were before that Save.
- VerifyChannelLinksAsWritten: a link's identity is its registry position. That relies on BuildChanneLinkList adding each configured object once, as loading the settings gives each entry its own object.
- White space, digits and case folding are modelled over ASCII only.
- Newlines from `AppendLine` are taken as "\n".
- MessageBuilder.GetTimespan: works on whole, non-negative seconds. The source takes a double and truncates each component with an `(int)` cast.
- Commands.ExecuteCommand: the command body is outside the model. An exception it throws is the input `bodyError`. The Logger lines and exceptions thrown by the checks themselves are not modelled.
- Commands.RespondToCommand: an exception while replying is only logged in the source, so it is not modelled.
- ChatFeed.DiscordChatFeed.UpdateInternal: requires at least one trigger datum, because the source reads `data[0]` without a check.
- MessageBuilder.FormatTradesForEco: requires every offer group to be non-empty. The groups come from LINQ grouping, which never yields an empty group, and the headings read the first offer.

## Findings

| source | as written | input that shows it | evidently intended | confidence | as-written member | corrected member |
|---|---|---|---|---|---|---|
| DiscordLink/Source/Modules/Feeds/DiscordChatFeed.cs:42 | UpdateInternal relays a Discord message into Eco through links whose direction is EcoToDiscord or Duplex | a DiscordToEco link on #trade and an EcoToDiscord link on #general; a message on #general | relay through DiscordToEco or Duplex links, the test ShouldRun uses at line 29 | high (not executed) | ChatFeed.EcoToDiscordLinkCarriesDiscordMessages | ChatFeed.RelayLinks, ChatFeed.CorrectedUpdateIgnoresOutboundLink |
| DiscordLink/Source/Systems/Config.cs:314 | the unverified-links pass skips links that are not valid, so it keeps only valid links that are not verified, and there are none | a registry with one link that does not resolve | list the links that did not resolve | high (not executed) | Config.UnverifiedListStaysEmpty | Config.UnverifiedLinks |
| DiscordLink/Source/Systems/Config.cs:257 | the "Discord server not configured" check tests the Eco server name override | an empty Discord server setting with the Eco server name set | test the Discord server setting (DiscordServer, line 399) | medium (not executed) | Config.UnsetDiscordServerGoesUnreported | Config.CorrectedStaticErrors, Config.CorrectedCheckReportsUnsetDiscordServer |
