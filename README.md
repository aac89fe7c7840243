# JESS-BOT in Dafny

A model of the rules inside JESS-BOT, a Discord bot that relays forum and channel messages to a
MyBusTimes backend. It also offers HTTP routes that act on Discord, a text-to-speech voice cog,
and a few staff commands. Discord, HTTP and the environment are abstract here. Lookups and
replies arrive as inputs: a `Response` is either a transport error or a status with a body. The
calls each handler makes are recorded as an ordered trace of `Call` values.

Modules, one per source file, plus shared vocabulary:

- `Wrappers`, `Http`, `Platform`: optional values and results, HTTP responses, and the Discord
  entities the rules read: users, channels, messages and guilds.
- `Decimal`, `Text`: Python's `str(n)`/`int(s)` and `split`/`strip`/`lower`/`in`/`startswith`
  on ASCII text, with their round-trip laws.
- `Forum` (cogs/forum.py): the allow-listed relay. `Classify` decides the route. `Handle`
  specifies the check, the create-on-404, the single relay and `process_commands`. The class
  `ForumCog` appends exactly that trace.
- `LegacyBot` (bot.py): the older unfiltered relay, the `/send-message` and `/create-channel`
  routes, and the `Bot` class.
- `Tts` (cogs/tts.py): the voice cog as a class `TtsCog` with fields `synced`, `voiceClient`,
  `reconnectAttempts`, `manualDisconnect`, `autoReconnectDisabled` and an effect trace. Its
  invariant `Valid()` says auto-reconnect is disabled exactly when the counter is at least 3.
- `General` (cogs/general.py): the allow-list parser, the `/badge` flow, badge
  autocompletion, and `/github-issue`.
- `Messaging` (cogs/messaging.py): the guards of the HTTP routes, thread-result unpacking, the
  embed normalisation and the two message formats.
- `Contrast`: how the forum relay relates to the legacy relay, and the messaging routes to
  bot.py's routes.

Two facts about cogs/forum.py shape the forum model:

- It has no ticket lookup, session broker or authenticated relay. A message in an unlisted
  text channel is ignored: `Forum.Classify` returns `Ignore`, and only `process_commands`
  runs.
- The relay's `httpx.AsyncClient()` sets no explicit timeout, so httpx's default applies.

## Model

| member | source | states |
|---|---|---|
| Decimal.Show | cogs/forum.py:51-52 | `str(n)` is a canonical digit string, and it is `"0"` exactly for 0 |
| Decimal.ValueOfShow | cogs/general.py:16 | `int(str(n)) == n` |
| Decimal.ShowOfValue | cogs/general.py:16-18 | `str(int(s)) == s` for a canonical digit string |
| Decimal.ShowInjective | cogs/forum.py:51 | distinct ids have distinct decimal keys |
| Text.StripPadded | cogs/general.py:16-18 | `strip` removes exactly the white space around a trimmed core |
| Text.Split | cogs/general.py:17 | `split(sep)` yields at least one piece and no piece holds the separator |
| Text.SplitAppend | cogs/general.py:17 | splitting at a separator splits each side independently |
| Text.JoinSplit | cogs/general.py:17 | `sep.join(s.split(sep)) == s` |
| Text.SplitJoin | cogs/general.py:17 | `sep.join(ps).split(sep) == ps` when no piece holds the separator |
| Forum.Classify | cogs/forum.py:45-71 | a thread is routed iff its parent is allow-listed, and a text channel iff its own id is; the route carries the thread or channel id, the forum id and the channel's name; everything else is ignored |
| Forum.Handle | cogs/forum.py:32-106 | the calls of `on_message`; specified by BackendCalledOnlyWhenRouted, CheckThenCreateOn404, OneRelayUnlessRaised, RelayFailureIsSwallowed and SecondMessageDoesNotCreate |
| Forum.RelayRun | cogs/forum.py:64-106 | the `if process_message:` block; specified by OneRelayUnlessRaised, RaisedStage, RelayFollowsCreate and RelayShape |
| Forum.Deliver | cogs/forum.py:84-106 | the attachment read, relay and `process_commands`; specified by DeliverCounts and RelayShape |
| Forum.BackendCalledOnlyWhenRouted | cogs/forum.py:34-64 | some backend call happens iff the author is not the bot and the channel is routed; the bot's own message yields an empty trace; a message in a channel without a name (a DM) raises at the log line of line 43 with no call; any other ignored message yields only `process_commands` |
| Forum.CheckThenCreateOn404 | cogs/forum.py:66-75 | the check-thread GET comes first with the thread key; a create happens iff that GET answered 404, once, as the second call, with channel key, forum key, channel name, author and text |
| Forum.DeliverCounts | cogs/forum.py:84-106 | delivery makes no create, one relay unless the attachment read raises, and then ends with `process_commands` |
| Forum.RaisedStage | cogs/forum.py:65-106 | the handler raises iff the check fails in transport, or the create does after a 404, or the attachment read raises |
| Forum.EarlyRaiseRelaysNothing | cogs/forum.py:65-75 | when the check or the create raises, no relay is posted and commands are not processed |
| Forum.OneRelayUnlessRaised | cogs/forum.py:64-106 | a routed message raises exactly in those cases, and then relays nothing; otherwise exactly one relay POST, after any create, with `process_commands` last |
| Forum.RelayFollowsCreate | cogs/forum.py:66-102 | every create call precedes every relay call |
| Forum.RelayShape | cogs/forum.py:77-102 | the relay carries thread key, forum key, author and text; it is multipart iff the message has an attachment, and then carries the first attachment's bytes under `image` |
| Forum.RelayFailureIsSwallowed | cogs/forum.py:90-106 | a relay transport failure is reported iff it happens, and `process_commands` still runs last; the relay's status is not inspected |
| Forum.KeysIdentifyChannel | cogs/forum.py:47-60 | `int(thread_id)` is the channel id, `int(forum_id)` is allow-listed, and equal thread keys mean the same channel |
| Forum.SecondMessageDoesNotCreate | cogs/forum.py:66-75 | against a backend that records creates, a second message in the same channel issues no create; two messages issue at most one |
| Forum.Setup | cogs/forum.py:109-117 | the cog is installed iff GUILD_ID, FORUM_CHANNEL_ID and bot_ready are all present, with that configuration |
| Forum.ForumCog.constructor | cogs/forum.py:20-24 | a new cog holds its configuration, is not ready and has made no calls |
| Forum.ForumCog.OnReady | cogs/forum.py:26-29 | sets the readiness event; no call is made |
| Forum.ForumCog.OnMessage | cogs/forum.py:31-106 | appends exactly `Handle`'s calls to the trace and raises as `Handle` says |
| Forum.ForumCog.RelayMessage | cogs/forum.py:64-106 | appends the check, the create on 404 and the delivery calls, stopping at a raising step |
| Forum.ForumCog.DeliverMessage | cogs/forum.py:84-106 | appends the attachment read, one relay (multipart or JSON), the failure report and `process_commands` |
| LegacyBot.Handle | bot.py:91-135 | the calls of bot.py's `on_message`; specified by EveryMessageRelayedOnce, RelayShape and RelayFailureReported |
| LegacyBot.EveryMessageRelayedOnce | bot.py:91-135 | the bot's own message causes nothing; any other message, from any channel, causes exactly one relay POST unless the attachment read raises, and then ends with `process_commands` |
| LegacyBot.RelayShape | bot.py:96-129 | the relay carries the integer channel id, `str(author)` and the text; multipart iff an attachment exists, carrying only the first under `image` |
| LegacyBot.RelayFailureReported | bot.py:115-135 | a transport failure or a non-2xx status is reported iff it happens, and `process_commands` still runs last |
| LegacyBot.SenderLine | bot.py:74 | the content starts with the bold sender and ends with the message unchanged |
| LegacyBot.SendMessage | bot.py:61-83 | 404 iff the channel is unknown; otherwise posts the unescaped sender line to that channel, with the upload iff one is given |
| LegacyBot.CreateChannel | bot.py:40-59 | 404 iff the guild or any channel under the category id is missing; otherwise a text channel named by the title in that category |
| LegacyBot.Bot.constructor | bot.py:24-25 | a new bot is not ready and has made no calls |
| LegacyBot.Bot.OnReady | bot.py:85-88 | sets `bot_ready` |
| LegacyBot.Bot.OnMessage | bot.py:90-135 | appends exactly `Handle`'s calls to the trace |
| Tts.VoiceClientOf | cogs/tts.py:21-25 | `get_voice_client` as a value; specified by VoiceClientOfIsFirst and computed by FindVoiceClient |
| Tts.DisconnectsIn | cogs/tts.py:129-135 | the forced disconnects of the guild's clients; ForceDisconnect's contract appends exactly these |
| Tts.VoiceClientOfIsFirst | cogs/tts.py:21-25 | the voice client found is the first of the guild's clients, and none is found only when the guild has none |
| Tts.FindVoiceClient | cogs/tts.py:21-25 | the search loop returns that first client |
| Tts.TtsCog.constructor | cogs/tts.py:8-19 | not synced, no voice client, counter 0, no manual disconnect, auto-reconnect enabled |
| Tts.TtsCog.Join | cogs/tts.py:27-69 | no change when the user is not in voice or the bot is already in that channel; otherwise counter 0 and auto-reconnect enabled, a connected client is disconnected first as a manual disconnect, and a successful connect stores the client and clears the manual flag |
| Tts.TtsCog.Leave | cogs/tts.py:71-92 | no change when not connected; otherwise a manual disconnect, and on success no client, counter 0, auto-reconnect enabled |
| Tts.TtsCog.OnVoiceStateUpdate | cogs/tts.py:94-157 | others' updates change nothing; a manual disconnect consumes the flag and keeps the counter; an unexpected one adds exactly 1 and at 3 disables auto-reconnect and disconnects every guild client; a move while disabled is undone without state change; the counter never decreases |
| Tts.TtsCog.ForceDisconnect | cogs/tts.py:128-135 | one disconnect per voice client of the guild, in list order |
| Tts.TtsCog.OnReady | cogs/tts.py:159-164 | the command tree is synced only while `synced` is false; a failing sync leaves it false |
| Tts.TtsCog.OnMessage | cogs/tts.py:166-180 | the (raising) `read_tts` call is attempted iff it is not the bot's, comes from a guild, the bot has a connected client there and it does not start with "/"; otherwise nothing changes |
| Tts.RepeatedDropsScenario | cogs/tts.py:110-119 | three unexpected disconnects from a fresh counter disable auto-reconnect; a successful leave then re-enables it with counter 0 |
| General.AllowedUserIds | cogs/general.py:15-19 | an unset or empty variable allows nobody |
| General.EntryId | cogs/general.py:16-18 | one entry of the variable: its stripped text read as an id when all digits; specified by AllowedUserIdsRoundTrip and AllowedUserIdsSkipsJunk |
| General.IdsIn | cogs/general.py:15-19 | the set comprehension over the pieces; specified by AllowedUserIdsRoundTrip and AllowedUserIdsSkipsJunk |
| General.AllowedUserIdsRoundTrip | cogs/general.py:15-19 | a list of ids written in decimal, comma-separated and padded with white space, reads back as exactly that set |
| General.AllowedUserIdsSkipsJunk | cogs/general.py:18 | an entry that is not a digit string once stripped (empty, a name, a negative number) adds nothing and removes nothing |
| General.AddBadgeReply | cogs/general.py:84-95 | 200 gives success with "given"/"removed" per `give`, 401/403 unauthorized, 404 not found, any other status a failure showing status and text |
| General.Badge | cogs/general.py:43-102 | the requests and reply of `/badge`; specified by BadgeRequiresAllowList, AddBadgeNeedsSessionKey, BadgeReplies (with AddBadgeReply) and BadgeDoneOnlyOn200 |
| General.BadgeRequiresAllowList | cogs/general.py:51-62 | the refusal happens iff the invoker is not allow-listed, and then no request is sent; the missing-credentials reply comes iff an allow-listed invoker finds `Username` or `Password` unset or empty, and then no request is sent either |
| General.AddBadgeNeedsSessionKey | cogs/general.py:57-82 | add-badge is sent iff the invoker is allowed, credentials are non-empty and the login succeeds with a non-empty session key; it follows the login and carries that key, badge, user and `give` |
| General.BadgeReplies | cogs/general.py:64-102 | past the credential check: a login transport failure gives request-failed, a non-2xx login the HTTP error with its status and text, a non-object body unexpected, a missing key no-session-key; after login an add transport failure gives request-failed and an add reply is mapped by AddBadgeReply |
| General.BadgeDoneOnlyOn200 | cogs/general.py:84-98 | success is reported iff add-badge was answered 200; an HTTP status error comes only from a failed login |
| General.ChoicesOf | cogs/general.py:29-32 | one choice per badge, name = value = `badge_name`, in order; fails iff an entry lacks `badge_name` |
| General.BadgeChoices | cogs/general.py:21-35 | `fetch_badges`' new `badge_choices`; specified by EmptyChoicesOnlyFromEmptyListing and ListingBecomesChoices |
| General.EmptyChoicesOnlyFromEmptyListing | cogs/general.py:21-35 | the choice list is empty iff the fetch succeeded with an empty or absent list; every failure (transport, non-2xx, a body that is not an object, an entry without `badge_name`) yields exactly the error choice; a success yields exactly `ChoicesOf` of the list |
| General.ListingBecomesChoices | cogs/general.py:28-32 | a successful listing of names becomes exactly those choices in order |
| General.Matching | cogs/general.py:109-110 | every kept choice contains `current` ignoring case and comes from the list, and every such choice is kept |
| General.MatchingAppend | cogs/general.py:109-110 | the filter distributes over concatenation, so order is preserved |
| General.Autocomplete | cogs/general.py:109-111 | at most 25 choices, a prefix of the matching ones, all of them when fewer than 25 |
| General.EmptyQueryMatchesAll | cogs/general.py:110 | the empty query keeps every choice |
| General.GeneralCog.constructor | cogs/general.py:12-19 | no choices, and the allow-list read from ALLOWED_USER_IDS |
| General.GeneralCog.FetchBadges | cogs/general.py:21-35 | `badge_choices` becomes the fetched choices, or the error choice |
| General.GeneralCog.BadgeAutocomplete | cogs/general.py:105-111 | fetches iff there are no choices yet, then answers the capped filter |
| General.SetupGeneral | cogs/general.py:177-180 | the installed cog has fetched its badges once |
| General.IssueText | cogs/general.py:144-147 | the issue body is the user's text, then "\n\n— Created by **", the invoker's name and "** via Discord" |
| General.GithubIssue | cogs/general.py:120-174 | the request and reply of `/github-issue`; specified by IssueText, IssueRequestShape and IssueCreatedOnlyOn201 |
| General.IssueRequestShape | cogs/general.py:127-157 | the request is sent iff the invoker is allowed and the token is non-empty; it carries the title, the issue text built by IssueText (the user's body as its prefix) and `token <token>` authorization |
| General.IssueCreatedOnlyOn201 | cogs/general.py:155-174 | success with the URL iff the reply is 201 with `html_url`; a 201 without it is the unexpected error; bad token iff 401; any other status a failure carrying that status and text; a transport error a failed request |
| Messaging.ChannelRequestOf | cogs/messaging.py:12-14 | the content defaults to "Discussion started via API" |
| Messaging.CreateThread | cogs/messaging.py:17-33 | 404 iff the guild is missing or the forum id does not name a forum channel; title and content are escaped |
| Messaging.ThreadResponseOf | cogs/messaging.py:35-46 | `first_message_id` is present iff creation returned a pair, and is that message's id |
| Messaging.CreateChannel | cogs/messaging.py:48-69 | 404 iff the guild is missing or the id does not name a category; otherwise a text channel under it |
| Messaging.DeleteChannel | cogs/messaging.py:71-89 | 404 iff the guild or the channel is missing |
| Messaging.EmbedGuard | cogs/messaging.py:111-119 | 400 iff `channel_id` is absent or 0 or `embed` absent or empty; else 404 iff the channel is unknown |
| Messaging.FieldOf | cogs/messaging.py:130-137 | name defaults to "Unnamed Field", value to "—", inline to false; name and value are escaped |
| Messaging.BuildEmbed | cogs/messaging.py:121-150 | the embed is `Normalised`: title/description only when non-empty, escaped; colour defaults to 0x00BFFF; one field per requested field in order; footer iff its text is non-empty; timestamp only when it parses |
| Messaging.NormalisedIsUnique | cogs/messaging.py:121-150 | those rules determine the embed completely |
| Messaging.SendEmbed | cogs/messaging.py:91-154 | refuses exactly as the guard says, otherwise sends to that channel an embed `Normalised` from the request |
| Messaging.SendMessageClean | cogs/messaging.py:156-179 | 404 iff the channel is unknown; otherwise the escaped message, with the upload iff given |
| Messaging.SendMessage | cogs/messaging.py:181-205 | 404 iff the channel is unknown; otherwise the escaped sender line, with the upload iff given |
| Contrast.ForumRelaysOnlyWhatLegacyRelays | cogs/forum.py:45-64 | whenever the forum cog relays a message, bot.py relays it too |
| Contrast.LegacyRelaysWhatForumIgnores | bot.py:91-103 | a message in a channel the forum cog ignores reaches the backend through bot.py |
| Contrast.ForumRelayPayload | cogs/forum.py:77-82 | the forum relay carries the author, the text and the decimal text of the channel id |
| Contrast.RelaysAgreeOnPayload | bot.py:99-103 | both relays carry the same author and text; the forum key is the decimal text of bot.py's integer id |
| Contrast.SendMessageEscapesLegacy | cogs/messaging.py:194-196 | the messaging `/send-message` is bot.py's route with the content escaped, with the same refusals |
| Contrast.CreateChannelIsStricter | cogs/messaging.py:59-61 | the messaging `/create-channel` accepts a subset of bot.py's, differing exactly on ids naming a non-category channel |

## Left out

- Concurrency and timing are not modelled, and each handler runs one event at a time. This
  covers the asyncio locks in cogs/tts.py, `asyncio.sleep`, the `bot_ready` waits of the
  routes, and the race between two messages' check-then-create. `last_disconnect_time` is
  written but never read, so it is left out too.
- Text-to-speech playback is not modelled. `read_tts` is commented out in cogs/tts.py, so the
  call at cogs/tts.py:180 raises at run time. The model records the attempt as a `ReadTts`
  effect.
- `escape_mentions` and `datetime.fromisoformat` belong to libraries. They are parameters
  (`escape`, `parseIso`), so nothing is assumed about them.
- Replies to Discord users are enumerations carrying the data the source's messages carry
  (user, badge, status, text), not the formatted strings. Console output is not modelled.
- `isdigit`, `strip` and `lower` are modelled on ASCII only. Unicode digits, white space and
  case folding are not.
- JSON is narrowed to the shapes the code reads:
  - An absent key and a JSON `null` are not distinguished.
  - A wrongly typed value is not modelled, such as a non-string `session_key`, a
    non-integer `channel_id` or a non-string embed field name.
  - A body that is not an object is one case (`...NotAnObject`).
- Channel, user and guild ids are non-negative integers. A negative id in a form field
  would only ever be "not found".
- Failures of Discord's own operations are not modelled. This covers sending, creating or
  deleting a channel, and creating a thread. The routes' success replies are not modelled
  beyond the thread result of `/create-thread`.
- Process start-up (main.py), cogs/fun.py and cogs/vehicle_details.py are not part of this
  model. The module-level `on_ready` at cogs/messaging.py:209-211 is never registered, so it
  is dead and is left out.
- General.AllowedUserIds: its own contract only covers the unset case. What it reads from a
  populated variable is stated by the round-trip and skip lemmas, not by one closed form.
