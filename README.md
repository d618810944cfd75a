# QQ adapter gateway core, modelled in Dafny

This project models the core of the nonebot QQ adapter and proves properties of the model. That core is:

- the gateway session;
- the wire codecs;
- the message handling;
- the two older `qqguild` adapters;
- the helpers of the OpenAPI client generator.

Nothing is executed; every property below is proved by the Dafny verifier.

It has five parts:

- **The QQ adapter** (`nonebot/adapters/qq`):
  - `QQConfig` covers intents and bot info, and `QQPayload` the opcode-tagged frames and their decoding with a generic fallback.
  - `Utils` covers `escape` and `unescape`, `MessageParse` the `<@id>`/`<#id>`/`<emoji:id>` split of `_construct`, and `Segments` and `QQMessage` the segments, their rendering, `from_guild_message`, `from_qq_message` and validation.
  - `QQEvent` covers the event-class registry and the user and session id formats.
  - `QQBot` is the `Bot` class with its session fields, the access-token cache, the auth headers and the request retry.
  - `QQSend` covers `_check_at_me`, the `_extract_*` helpers, `msg_type` and the reply sequence, and `ApiResponse` the response classification.
  - `SendBody` covers `exclude_none` and the three `parse_send_message` variants, and `ApiDescriptor` the `API` descriptor.
  - `QQPermission` covers the role checks.
  - `QQAdapter` covers hello, the identify/resume handshake, the receive loop, the heartbeat, the connection pass, the shard plan, the Ed25519 seed and the webhook signature shape check.
- **The stand-alone `qqguild` package** (`packages/nonebot-adapter-qqguild`):
  - `GuildConfig` covers intents, and `GuildPayload` the frames, with a mandatory dispatch sequence.
  - `GuildMessages` covers rendering, `from_guild_message` and `reference`.
  - `GuildBot` is the `Bot` class with its session properties, plus `_check_at_me`, `_extract_send_message` and the routing of `send`.
  - `Transformers` covers the four `dict()` transformers.
  - `GuildAdapter` covers the handshake, `_authenticate`, the receive loop, the heartbeat, `_forward_ws` and `run_bot`.
- **The older `qqguild` tree** (`nonebot/adapters/qqguild`):
  - `LegacyAdapter` is its inline `_forward_ws`.
  - Its `bot.py` differs from the packaged one only in decorators, so `GuildBot` models both.
  - Its heartbeat and shard plan are those of `GuildAdapter` (`HeartbeatTick`, `PlanShards`), and its escape functions are those of `Utils`.
  - `GuildMessages` and `SendBody` carry its variants of `from_guild_message` and `parse_send_message`, `ApiResponse.LegacyRequest` its `_request`, and `GuildPermission` its integer role checks.
- **The forum elements** of `models/guild.py` (`ForumModel`): `infer_type` and the content and title parsing.
- **The code generator** (`codegen`):
  - `CodegenSource` covers the JSON Pointer evaluation of section 4 of RFC 6901 and the per-URL source cache.
  - `CodegenModel` covers `snake_to_pascal`, the annotations and the object registry.
  - `CodegenGenerator` covers `sort_models`, and `CodegenResolve` the `$ref` inlining of `_resolve_ref`.
  - `CodegenParse` covers `parse`.
  - `CodegenClient` covers the type and signature building of `gen_api_client.py`, and `CodegenRequest` the handler building of `gen_request.py`.

The models rest on three shared modules:

- `Wrappers` holds `Option` and `Result`.
- `PyStr` models Python's `str.replace`, `lstrip`, `strip` and `split`.
- `Json` is an ordered JSON value. Its objects are sequences of key/value pairs, because Python dicts keep insertion order.

A websocket is modelled as a `Socket` object:

- It holds the frames still to arrive (`inbox`) and the frames sent (`outbox`).
- Running out of frames is the closed connection.
- Whether a send succeeds is a parameter.
- Clocks, HTTP replies, file fetches and the JSON/YAML parsers are parameters too.

## Model

| member | source | states |
|---|---|---|
| QQPermission.HasRole | nonebot/adapters/qq/permission.py:11 | a missing member counts as no roles (false); a member whose `roles` is not iterable is the TypeError; otherwise true iff the role is in the list |
| QQPermission.GuildChannelAdmin | nonebot/adapters/qq/permission.py:8-11 | true exactly when the member holds the string role "5" |
| QQPermission.GuildAdmin | nonebot/adapters/qq/permission.py:14-15 | true exactly when the member holds the string role "2" |
| QQPermission.GuildOwner | nonebot/adapters/qq/permission.py:18-19 | true exactly when the member holds the string role "4" |
| GuildPermission.HasRole | nonebot/adapters/qqguild/permission.py:9 | no default for a missing member: it is an error, as are roles that cannot be searched; otherwise membership of the integer role |
| GuildPermission.GuildAdmin | nonebot/adapters/qqguild/permission.py:8-9 | true iff the member holds the integer role 2 |
| GuildPermission.GuildOwner | nonebot/adapters/qqguild/permission.py:12-13 | true iff the member holds the integer role 4 |
| ApiDescriptor.Api.constructor | nonebot/adapters/qq/utils.py:31-35 | the descriptor carries the attribute name it is bound under |
| ApiDescriptor.Api.SetName | nonebot/adapters/qq/utils.py:34-35 | `__set_name__` records the attribute name |
| ApiDescriptor.Api.Get | nonebot/adapters/qq/utils.py:45-51 | class access gives the descriptor itself; instance access gives `call_api` bound to that instance under the attribute name |
| ApiResponse.AuditId | nonebot/adapters/qq/bot.py:521-525 | the audit id lookup fails only on a non-dict step |
| ApiResponse.Classify | nonebot/adapters/qq/bot.py:512-538 | success iff a 2xx other than 201/202, returning the body; 201/202 raise an audit exception only with a truthy audit id; 401, 404/405 and 429 raise their own errors, every other status ActionFailed |
| ApiResponse.LegacyRequest | nonebot/adapters/qqguild/api/request.py:23-49 | a failed request is NetworkError; the status classification is the same; adapter exceptions pass through and a malformed audit body becomes NetworkError |
| Utils.Escape | nonebot/adapters/qq/utils.py:18-19 | `escape` encodes every `&`, `<` and `>` as its entity and keeps every other character, in order |
| Utils.Unescape | nonebot/adapters/qq/utils.py:22-23 | `unescape` never turns non-empty text into empty text, since each entity becomes one character |
| Utils.UnescapeEscape | nonebot/adapters/qq/utils.py:18-23 | `unescape(escape(s)) == s` for every string |
| Utils.EscapeNoAngle | nonebot/adapters/qq/utils.py:18-19 | escaped text holds no `<` and no `>` |
| Utils.EscapeAmpsAreEntities | nonebot/adapters/qq/utils.py:18-19 | every `&` in escaped text begins `&amp;`, `&lt;` or `&gt;` |
| Utils.EscapePlain | nonebot/adapters/qqguild/utils.py:6-7 | text without `&`, `<` or `>` is left unchanged by `escape` |
| QQConfig.ToMask | nonebot/adapters/qq/config.py:21-36 | bits 0, 1, 9, 10, 12, 18, 19, 25, 26, 27, 28, 29 and 30 carry the thirteen flags in declaration order, and no other bit is set |
| QQConfig.ToInt | nonebot/adapters/qq/config.py:21-36 | the mask sent in Identify is below 2^31 |
| QQConfig.FromToMask | nonebot/adapters/qq/config.py:21-36 | each flag owns a distinct bit, so every flag is recovered from the mask |
| QQConfig.ToMaskInjective | nonebot/adapters/qq/config.py:21-36 | two different flag sets never give the same mask |
| QQConfig.DefaultToInt | nonebot/adapters/qq/config.py:6-19 | the default flags give 1207960579 |
| QQConfig.IsGroupEnabled | nonebot/adapters/qq/config.py:38-41 | group features are on exactly when bit 25 (`c2c_group_at_messages`) is set |
| QQConfig.NewBotInfo | nonebot/adapters/qq/config.py:44-49 | `shard` defaults to None and `intent` to the default flags; the given fields are kept |
| QQConfig.IsGroupBot | nonebot/adapters/qq/config.py:51-54 | a bot is a group bot exactly when its intents enable groups |
| QQConfig.DefaultNotGroupBot | nonebot/adapters/qq/config.py:14 | a bot with default intents is not a group bot |
| GuildConfig.ToMask | packages/nonebot-adapter-qqguild/nonebot/adapters/qqguild/config.py:17-28 | bits 0, 1, 9, 10, 12, 27, 28, 29 and 30 carry the nine flags, and no other bit is set |
| GuildConfig.ToInt | packages/nonebot-adapter-qqguild/nonebot/adapters/qqguild/config.py:17-28 | the mask is below 2^31 |
| GuildConfig.FromToMask | packages/nonebot-adapter-qqguild/nonebot/adapters/qqguild/config.py:17-28 | the nine bits are pairwise distinct, so the mask gives the flags back |
| GuildConfig.ToMaskInjective | packages/nonebot-adapter-qqguild/nonebot/adapters/qqguild/config.py:17-28 | different flag sets give different masks |
| GuildConfig.DefaultToInt | packages/nonebot-adapter-qqguild/nonebot/adapters/qqguild/config.py:6-15 | the default flags give 1207960579 |
| GuildConfig.NewBotInfo | packages/nonebot-adapter-qqguild/nonebot/adapters/qqguild/config.py:31-36 | `shard` defaults to None and `intent` to the default flags |
| QQPayload.Alias | nonebot/adapters/qq/models/payload.py:9 | the four field names opcode, data, sequence and type travel as `op`, `d`, `s` and `t`; every other name is kept as it is |
| QQPayload.ValidateDispatch | nonebot/adapters/qq/models/payload.py:43-48 | a validated Dispatch takes its data object from `d` and its event type from the string `t` |
| QQPayload.ByOpcode | nonebot/adapters/qq/models/payload.py:143-149 | a typed result carries the frame's opcode; Reconnect, InvalidSession and HeartbeatAck frames always become typed; a frame that no variant accepts falls back to the generic payload with its fields intact |
| QQPayload.Decode | nonebot/adapters/qq/models/payload.py:143-149 | decoding succeeds exactly for JSON objects; a typed result's opcode is the frame's `op`; the client-only variants Heartbeat, Identify, Resume and HTTPCallbackAck are never produced |
| QQPayload.Encode | nonebot/adapters/qq/adapter.py:562-567 | dumping by alias gives a JSON object whose `op` is the payload's opcode |
| QQPayload.OptionalRoundTrip | nonebot/adapters/qq/models/payload.py:43-48 | the optional `s` and `id` fields read back as written, `null` standing for absent |
| QQPayload.DispatchRoundTrip | nonebot/adapters/qq/models/payload.py:43-48 | a Dispatch whose extras do not shadow its declared keys decodes back to itself |
| QQPayload.HelloRoundTrip | nonebot/adapters/qq/models/payload.py:101-114 | a Hello decodes back to itself, heartbeat interval included |
| QQPayload.WebhookVerifyRoundTrip | nonebot/adapters/qq/models/payload.py:126-140 | a webhook verification request decodes back to itself, plain token and timestamp included |
| QQPayload.BareRoundTrip | nonebot/adapters/qq/models/payload.py:93-118 | Reconnect, InvalidSession and HeartbeatAck decode back to themselves |
| QQPayload.DecodeEncode | nonebot/adapters/qq/models/payload.py:143-149 | every payload the server can send survives encode then decode unchanged |
| QQPayload.SentFramesDecodeGeneric | nonebot/adapters/qq/models/payload.py:51-90 | a frame the client sends (Heartbeat, Identify, Resume, HTTPCallbackAck) is not in the received union, so decoding it yields the generic payload with the same fields |
| GuildPayload.ValidateDispatch | packages/nonebot-adapter-qqguild/nonebot/adapters/qqguild/payload.py:27-31 | a Dispatch needs an object `d`, a string `t` and an integer `s`; without an integer `s` validation fails |
| GuildPayload.ByOpcode | packages/nonebot-adapter-qqguild/nonebot/adapters/qqguild/payload.py:83-89 | a typed result carries the frame's opcode; Reconnect, InvalidSession and HeartbeatAck frames always become typed; otherwise the generic payload keeps the fields |
| GuildPayload.Decode | packages/nonebot-adapter-qqguild/nonebot/adapters/qqguild/payload.py:83-89 | decoding succeeds exactly for JSON objects; a typed result's opcode is the frame's `op`, and a Dispatch's sequence is the frame's `s` |
| GuildPayload.DispatchNeedsSequence | packages/nonebot-adapter-qqguild/nonebot/adapters/qqguild/payload.py:30 | a dispatch frame whose `s` is not an integer decodes to the generic payload, not to a Dispatch |
| GuildPayload.Encode | packages/nonebot-adapter-qqguild/nonebot/adapters/qqguild/transformer.py:86-107 | export by alias gives a JSON object whose `op` is the payload's opcode |
| GuildPayload.DispatchRoundTrip | packages/nonebot-adapter-qqguild/nonebot/adapters/qqguild/payload.py:27-31 | a Dispatch whose extras do not shadow its declared keys decodes back to itself |
| GuildPayload.HelloRoundTrip | packages/nonebot-adapter-qqguild/nonebot/adapters/qqguild/payload.py:70-76 | a Hello decodes back to itself |
| GuildPayload.BareRoundTrip | packages/nonebot-adapter-qqguild/nonebot/adapters/qqguild/payload.py:62-80 | Reconnect, InvalidSession and HeartbeatAck decode back to themselves |
| GuildPayload.DecodeEncode | packages/nonebot-adapter-qqguild/nonebot/adapters/qqguild/payload.py:83-89 | every payload the server can send survives export then decode unchanged |
| MessageParse.MatchAtLt | nonebot/adapters/qq/message.py:549 | the tag pattern cannot match at a position that does not hold `<` |
| MessageParse.MatchAtText | nonebot/adapters/qq/message.py:548-551 | a match at the start of a string spans exactly the text of its tag (`<`, kind, optional `!`, id, `>`), and its id is a non-empty run of word characters |
| MessageParse.MatchTagText | nonebot/adapters/qq/message.py:548-551 | the text of a well-formed tag, whatever follows it, is matched again as that same tag (the lazy id stops at the first `>`) |
| MessageParse.TextSeg | nonebot/adapters/qq/message.py:552-554 | an empty piece of text yields no segment; a non-empty one yields one text segment holding the unescaped piece |
| MessageParse.Find | nonebot/adapters/qq/message.py:548-551 | a found match lies inside the string, at or after the search start, and is non-empty |
| MessageParse.FindLeftmost | nonebot/adapters/qq/message.py:548-551 | the scan finds the leftmost match: the pattern matches where it is found and at no earlier position; when nothing is found, no position matches |
| MessageParse.Matches | nonebot/adapters/qq/message.py:548-551 | the matches of `finditer` are ordered, non-overlapping and inside the string |
| MessageParse.Parse | nonebot/adapters/qq/message.py:546-566 | `Message(str)` yields only text, mention and emoji segments, with no empty text segment and no two text segments side by side |
| MessageParse.Construct | nonebot/adapters/qq/message.py:546-566 | the loop over the matches yields exactly the segments of the parse of the message |
| MessageParse.FindSkip | nonebot/adapters/qq/message.py:548-551 | no tag starts in a stretch of text that holds no `<` |
| MessageParse.ParseEscaped | nonebot/adapters/qq/message.py:546-566 | an escaped non-empty string parses back to one text segment holding the original string |
| MessageParse.ParseTag | nonebot/adapters/qq/message.py:555-563 | the text of one well-formed tag parses back to exactly its user mention, channel mention or emoji segment |
| QQEvent.RegistryOf | nonebot/adapters/qq/event.py:145-150 | the registry holds exactly the registered type names, and the last registration of a name decides its class |
| QQEvent.RegistryLastWins | nonebot/adapters/qq/event.py:148-150 | a type name registered at some position and never again afterwards maps to the class registered there |
| QQEvent.EventRegistry.constructor | nonebot/adapters/qq/event.py:145 | the registry starts empty |
| QQEvent.EventRegistry.Register | nonebot/adapters/qq/event.py:148-150 | the class is stored under its type name, replacing an earlier entry, and is handed back unchanged |
| QQEvent.EventRegistry.RegisterAll | nonebot/adapters/qq/event.py:160-640 | registering the decorated classes in order leaves the old entries overridden by the registry of the new ones |
| QQEvent.ClassFor | nonebot/adapters/qq/adapter.py:585-596 | a registered type name selects its class; any other falls back to the base event, tagged with the type name |
| QQEvent.RegistryLookup | nonebot/adapters/qq/adapter.py:585-596 | an unregistered type name gives the base event; a name whose last registration is at some position gives that position's class |
| QQEvent.SessionId | nonebot/adapters/qq/event.py:137-139 | meta, plain notice and base events have no context (ValueError); an interaction of an unknown chat type is the unknown-chat-type error; every session id begins with `guild_`, `friend_` or `group_` |
| QQEvent.UserId | nonebot/adapters/qq/event.py:133-135 | meta, notice, base and message-delete events have no context; an interaction of an unknown chat type is an error; only an interaction may report no user |
| QQEvent.SessionEndsWithUser | nonebot/adapters/qq/event.py:222-640 | whenever an event reports both, its session id ends with its user id |
| QQEvent.InteractionSessions | nonebot/adapters/qq/event.py:421-443 | an interaction of chat type 0, 1 or 2 reports the session of a guild channel message, a group-@ message or a C2C message from the same ids; any other chat type fails for both ids |
| QQEvent.DefaultToMe | nonebot/adapters/qq/event.py:258-388 | a guild message is addressed to the bot by default exactly when its type is AT_MESSAGE_CREATE or DIRECT_MESSAGE_CREATE, so a plain MESSAGE_CREATE is not; C2C and group-@ messages always are |
| QQEvent.LStripFirstText | nonebot/adapters/qq/event.py:391-396 | only a leading text segment changes, and it loses its leading whitespace; length and the other segments are kept |
| QQEvent.MessageEvent.constructor | nonebot/adapters/qq/event.py:258-260 | a new message event holds its data, `to_me` takes its class default as QQEvent.DefaultToMe states it (true exactly for guild @ and direct messages, C2C and group-@ messages), no message is stored yet and the reply sequence is -1 |
| QQEvent.MessageEvent.FirstMessage | nonebot/adapters/qq/event.py:296-299 | the first stored message is the built message, except that a group-@ message has its first text segment left-stripped |
| QQEvent.MessageEvent.GetMessage | nonebot/adapters/qq/event.py:354-358 | the first call stores the built message; later calls return the stored one unchanged |
| QQEvent.MessageEvent.IsToMe | nonebot/adapters/qq/event.py:266-267 | a message event is addressed to the bot exactly when its `to_me` attribute is set |
| QQBot.Refresh | nonebot/adapters/qq/bot.py:233-257 | a cached token still inside its window is reused without a request; otherwise the fetch fails with a network error, cache untouched, exactly when the reply is not 200 or is empty |
| QQBot.TokenReuseWindow | nonebot/adapters/qq/bot.py:234-256 | a freshly fetched token is returned, and is reused until 30 seconds before it expires and no longer |
| QQBot.Headers | nonebot/adapters/qq/bot.py:259-270 | the Authorization header always comes first; a group bot sends `QQBot <token>` and an `X-Union-Appid` header with its app id, any other bot `Bot <id>.<token>` alone |
| QQBot.HeaderScheme | nonebot/adapters/qq/bot.py:259-263 | the Authorization value uses the `QQBot ` scheme exactly for group bots |
| QQBot.Lift | nonebot/adapters/qq/bot.py:548-549 | a response's value passes through, and its error becomes the API error of the bot call |
| QQBot.RequestOutcome | nonebot/adapters/qq/bot.py:540-572 | at most two requests are sent, the second exactly when a group bot got a 401 and could refresh its headers; a failed first header fetch sends nothing |
| QQBot.NoRetryWithoutGroup | nonebot/adapters/qq/bot.py:550-553 | a bot that is not a group bot never resends, and a 401 it gets is raised as Unauthorized |
| QQBot.Bot.constructor | nonebot/adapters/qq/bot.py:172-187 | a new bot holds its config and no user, session, sequence or token |
| QQBot.Bot.SessionId | nonebot/adapters/qq/bot.py:207-212 | the session id is available exactly while the bot is ready, and is the one held; otherwise the not-connected error |
| QQBot.Bot.Sequence | nonebot/adapters/qq/bot.py:214-219 | the sequence is available exactly when one is held; otherwise the not-connected error |
| QQBot.Bot.SelfInfo | nonebot/adapters/qq/bot.py:195-200 | the bot's own user is available exactly when known; otherwise the not-connected error |
| QQBot.Bot.OnReady | nonebot/adapters/qq/bot.py:221-223 | the READY event's user and session id are stored, the bot becomes ready, and sequence and token are kept |
| QQBot.Bot.OnDispatch | nonebot/adapters/qq/bot.py:225-226 | the frame's sequence number, absent included, replaces the stored one; nothing else changes |
| QQBot.Bot.Reset | nonebot/adapters/qq/bot.py:228-231 | session id and sequence are forgotten, the bot is no longer ready, user and token are kept |
| QQBot.Bot.GetAccessToken | nonebot/adapters/qq/bot.py:233-257 | the token and the new cache are those of `Refresh`; the session state is untouched |
| QQBot.Bot.AuthorizationHeaders | nonebot/adapters/qq/bot.py:259-270 | a group bot's headers carry the refreshed token, or the fetch error is raised; any other bot's headers need no token and leave the cache alone |
| QQBot.Bot.Request | nonebot/adapters/qq/bot.py:540-572 | result and number of requests sent are those of `RequestOutcome`; the cache is the one the first header fetch leaves (a group bot's refreshed cache, any other bot's unchanged one), except after a group bot's 401, when it is that cache with the token dropped and refreshed again, so a refetch that fails leaves no token; on a resend the cache holds the newly fetched token; the session state is untouched |
| QQSend.CountAtMeAppend | nonebot/adapters/qq/bot.py:125-129 | the self-mentions of two joined messages are those of each part added up |
| QQSend.NonEmpty | nonebot/adapters/qq/bot.py:133-135 | the message is never empty afterwards, and a non-empty one is unchanged |
| QQSend.TailIndex | nonebot/adapters/qq/bot.py:151-160 | the segment checked at the end is the last one, or the last but one exactly when a blank text segment closes a message of two or more |
| QQSend.StripHeadCount | nonebot/adapters/qq/bot.py:142-146 | stripping the text after a leading mention removes no self-mention |
| QQSend.AtMeSpec | nonebot/adapters/qq/bot.py:131-166 | the checked message is never empty; when no self-mention is found it is only padded; when one is found exactly one self-mention is removed |
| QQSend.NonEmptyCount | nonebot/adapters/qq/bot.py:133-135 | padding an empty message adds no self-mention |
| QQSend.AtMeLeading | nonebot/adapters/qq/bot.py:137-146 | a leading self-mention followed by text goes, and the text loses its leading whitespace |
| QQSend.StripHeadText | nonebot/adapters/qq/bot.py:142-146 | the text after a leading mention is left-stripped, and dropped when nothing is left |
| QQSend.LStripNbsp | nonebot/adapters/qq/bot.py:144 | stripping `\xa0` before whitespace changes nothing, since `\xa0` is whitespace too |
| QQSend.CheckAtMe | nonebot/adapters/qq/bot.py:114-166 | the event's message becomes the checked message; `to_me` is set by a guild message mentioning the bot or by a removed self-mention, and is otherwise kept |
| QQSend.LastIndex | nonebot/adapters/qq/bot.py:286-298 | the chosen index is the last one whose segment has the kind; none is chosen exactly when no segment has it |
| QQSend.ExtractSendMessage | nonebot/adapters/qq/bot.py:285-299 | the content is sent exactly when the escaped content is non-empty; an embed, and likewise a keyboard, is sent exactly when the message has a segment of that kind |
| QQSend.ExtractContentSent | nonebot/adapters/qq/bot.py:287-288 | the content sent is the escaped extracted content, and absent when that is empty |
| QQSend.ExtractEmbedLast | nonebot/adapters/qq/bot.py:289-290 | an embed is sent exactly when the message has a segment of that kind, and it is the data of the last such segment |
| QQSend.ExtractArkLast | nonebot/adapters/qq/bot.py:291-292 | an ark is sent exactly when the message has a segment of that kind, and it is the data of the last such segment |
| QQSend.ExtractMarkdownLast | nonebot/adapters/qq/bot.py:293-294 | a markdown is sent exactly when the message has a segment of that kind, and it is the data of the last such segment |
| QQSend.ExtractReferenceLast | nonebot/adapters/qq/bot.py:295-296 | a message reference is sent exactly when the message has a segment of that kind, and it is the data of the last such segment |
| QQSend.ExtractKeyboardLast | nonebot/adapters/qq/bot.py:297-298 | a keyboard is sent exactly when the message has a segment of that kind, and it is the data of the last such segment |
| QQSend.FileType | nonebot/adapters/qq/bot.py:312-335 | the file type of the media types in the order image, video, audio, file, file_image, file_audio, file_video, file_file is 1, 2, 3, 4, 1, 2, 3, 4 |
| QQSend.MediaFromSpec | nonebot/adapters/qq/bot.py:310-336 | the media chosen is of the first type in the order image, video, audio, file, then the uploaded ones that the message has, and is the last segment of that type; there is none exactly when the message has no media |
| QQSend.MsgType | nonebot/adapters/qq/bot.py:380-399 | the message type is 4 for an embed, else 3 for an ark, else 2 for markdown, else 7 when there is media, else 0 |
| QQSend.PlainMessageType | nonebot/adapters/qq/bot.py:380-399 | a message of text, emoji and mentions only is sent as type 0 with no media |
| QQSend.NoStructured | nonebot/adapters/qq/bot.py:284-299 | a message of text, emoji and mentions carries no embed, ark or markdown |
| QQSend.GuildImage | nonebot/adapters/qq/bot.py:301-308 | a chosen image url and a chosen uploaded image are each taken from a segment of the message |
| QQSend.Send | nonebot/adapters/qq/bot.py:472-509 | a direct message goes to the DMs of its guild and any other guild message to its channel; a C2C or group-@ message first counts up the reply sequence and sends that value, with the message type and media chosen as above; any other event is the cannot-reply error |
| QQAdapter.ReceiveSpec | nonebot/adapters/qq/adapter.py:419-420 | an exhausted socket is the closed failure; otherwise one frame is consumed, it fails validation exactly when it is not a JSON object, and a dispatch's sequence number becomes the bot's |
| QQAdapter.PayloadToEvent | nonebot/adapters/qq/adapter.py:585-596 | the event carries the dispatch's type, id and data; its class is the one registered for the type, or the base event |
| QQAdapter.ReadyOf | nonebot/adapters/qq/adapter.py:347-357 | a READY that validates yields the session id found in its data |
| QQAdapter.Socket.constructor | nonebot/adapters/qq/adapter.py:199 | a new socket holds the frames still to arrive and has sent nothing |
| QQAdapter.Socket.Send | nonebot/adapters/qq/adapter.py:319 | a successful send appends the payload to what was sent; a failed one changes nothing |
| QQAdapter.Adapter.constructor | nonebot/adapters/qq/adapter.py:53-61 | a new adapter has its event classes, no connected bot and no handled event |
| QQAdapter.Receive | nonebot/adapters/qq/adapter.py:419-420 | the result, the frames left and the bot's sequence are those of `ReceiveSpec`; nothing else changes |
| QQAdapter.ReceiveHello | nonebot/adapters/qq/adapter.py:267-284 | one frame is consumed; the interval is that of a Hello frame and is absent for any other frame or a failed receive |
| QQAdapter.AuthString | nonebot/adapters/qq/bot.py:259-263 | the authorization string fails exactly when a group bot cannot fetch a token, and is otherwise the value of the Authorization header |
| QQAdapter.AuthorizationString | nonebot/adapters/qq/bot.py:259-263 | the result is `AuthString` of the old cache; only a group bot's token cache changes |
| QQAdapter.Authenticate | nonebot/adapters/qq/adapter.py:286-373 | the result, the frames sent and left, the session id, sequence, own user and token cache, and the events handed on are those of `AuthSpec`; without a session, Identify with the token, the intent mask and the shard is sent, and exactly one reply is read: a READY dispatch stores the user and session and is handed on, any other reply returns None; with a session, Resume with the stored session id and sequence is sent and nothing is read; a failed send returns None; success marks the bot connected |
| QQAdapter.LoopSpec | nonebot/adapters/qq/adapter.py:387-417 | the loop consumes a prefix of the frames, and it ends as closed exactly when it ran out of frames |
| QQAdapter.Loop | nonebot/adapters/qq/adapter.py:387-417 | end, frames left, session id, sequence and events handed on are those of `LoopSpec`; the own user, the token and the sent frames are untouched |
| QQAdapter.LoopAdvance | nonebot/adapters/qq/adapter.py:389-417 | one turn of the loop either keeps the loop invariant or ends where the whole loop ends |
| QQAdapter.LastSequenceCons | nonebot/adapters/qq/adapter.py:558-559 | the sequence left by a frame and then the rest is that left by the rest, starting from the sequence the frame leaves |
| QQAdapter.ConsumedStep | nonebot/adapters/qq/adapter.py:389-417 | a frame that does not end the loop is consumed, followed by what the loop consumes of the remaining frames |
| QQAdapter.LoopSession | nonebot/adapters/qq/adapter.py:387-417 | the session id survives the loop unless InvalidSession, which clears both session id and sequence; otherwise the sequence is that of the last consumed dispatch |
| QQAdapter.LoopEvents | nonebot/adapters/qq/adapter.py:395-396 | the events handed on are the events of the consumed dispatches that validate, in order |
| QQAdapter.ReconnectKeepsSession | nonebot/adapters/qq/adapter.py:401-413 | after a Reconnect the session is kept for a resume; after an InvalidSession it is gone, so the next handshake identifies |
| QQAdapter.HeartbeatFrame | nonebot/adapters/qq/adapter.py:375-385 | nothing is sent exactly while the bot is not ready; a ready bot without a sequence raises; otherwise a Heartbeat with the current sequence |
| QQAdapter.HeartbeatTick | nonebot/adapters/qq/adapter.py:375-385 | the frame is that of `HeartbeatFrame`, and it is appended to the sent frames when the send succeeds; a failed send is ignored |
| QQAdapter.Connect | nonebot/adapters/qq/adapter.py:188-265 | the pass stops at the first frame exactly when it is not a Hello, having sent nothing and handed nothing on; otherwise the frames sent, the token cache and the own user are those `AuthSpec` gives on the remaining frames, a handshake that raises or returns None ends the pass with its state, and a successful one is followed by `LoopSpec` on the frames it left and the session it set, whose end, frames left, session, sequence and events (after the READY's) the pass ends with; however the pass ends the bot is disconnected; a Reconnect leaves it ready, an InvalidSession leaves it without session or sequence |
| QQAdapter.AuthSpec | nonebot/adapters/qq/adapter.py:286-373 | a handshake that raises or returns None hands nothing on and keeps the session id and own user; a successful one leaves a session id; a group bot's token cache is the refreshed one, any other bot's is unchanged |
| QQAdapter.PlanShards | nonebot/adapters/qq/adapter.py:162-185 | no connection is opened exactly when `remaining` is non-zero and not positive; a configured shard is used alone; otherwise one connection per shard index, with the shard count `shards or 1` |
| QQAdapter.Ed25519Seed | nonebot/adapters/qq/adapter.py:476-482 | the seed has 32 bytes, starts with the secret and repeats with the secret's length as period |
| QQAdapter.SignatureShape | nonebot/adapters/qq/adapter.py:527 | the signature test (64 bytes, top three bits of the last clear) holds exactly for 64 bytes whose last is below 32 |
| QQAdapter.HexValue | nonebot/adapters/qq/adapter.py:526 | a hex digit of either case has a value below 16 |
| QQAdapter.Hexlify | nonebot/adapters/qq/adapter.py:497 | the hex text has two characters per byte |
| QQAdapter.Unhexlify | nonebot/adapters/qq/adapter.py:526 | decoded bytes are half as many as the hex characters |
| QQAdapter.UnhexlifyHexlify | nonebot/adapters/qq/adapter.py:497 | hex encoding then decoding gives the bytes back |
| QQAdapter.WebhookVerifyReply | nonebot/adapters/qq/adapter.py:484-507 | the answer has status 200, the plain token, and a hex signature that decodes to the signature made |
| QQAdapter.CheckSignature | nonebot/adapters/qq/adapter.py:509-544 | a missing or empty signature or timestamp is 403; with both present, a missing body is 400; a signature that is not hex raises; a signature that decodes is rejected with 403 when it fails the shape test and is otherwise handed to the library to be checked over the timestamp followed by the body |
| Segments.PlainText | nonebot/adapters/qq/message.py:616-618 | the plain text is empty for an empty message and skips every segment that is not text |
| Segments.PlainTextAppend | nonebot/adapters/qq/message.py:616-618 | the plain text of two joined messages is the plain text of the first followed by that of the second |
| Segments.PlainTextNoText | nonebot/adapters/qq/message.py:616-618 | a message without text segments has empty plain text |
| Segments.AddText | nonebot/adapters/qq/message.py:529-535 | adding a string appends one text segment holding it, and keeps the message before it |
| Segments.PrependText | nonebot/adapters/qq/message.py:537-543 | adding a message to a string puts one text segment holding it in front of the message |
| Segments.AddTextPlain | nonebot/adapters/qq/message.py:529-535 | appending a string adds exactly that string to the plain text |
| Segments.UrlAttachmentsSpec | nonebot/adapters/qq/message.py:575-578 | the segments built are exactly the attachments of the given kind whose url is one of the non-empty urls of the list |
| Segments.Embeds | nonebot/adapters/qq/message.py:579-580 | one embed segment per embed, in order |
| QQMessage.SegStr | nonebot/adapters/qq/message.py:238-298 | a text segment renders escaped, with no angle bracket left; mention-everyone renders `@everyone`; mentions and emoji render as their tags |
| QQMessage.RenderParse | nonebot/adapters/qq/message.py:238-284 | rendering a non-empty text, a mention or an emoji whose id is a run of word characters, and parsing the result, gives back exactly that segment |
| QQMessage.Str | nonebot/adapters/qq/message.py:238-298 | a message renders as the rendering of its first segment followed by the rest |
| QQMessage.ContentPiece | nonebot/adapters/qq/message.py:610 | a text segment contributes its raw text when escaping is off; otherwise every kept segment contributes its rendering |
| QQMessage.ContentOnly | nonebot/adapters/qq/message.py:611-613 | the kept segments are at most as many as the message has, and are all text, emoji or mentions |
| QQMessage.ExtractContent | nonebot/adapters/qq/message.py:608-614 | a message without text, emoji or mention segments extracts to the empty string |
| QQMessage.ExtractContentOnly | nonebot/adapters/qq/message.py:608-614 | segments other than text, emoji and mentions contribute nothing: extracting from a message equals extracting from its kept segments |
| QQMessage.ExtractContentAppend | nonebot/adapters/qq/message.py:608-614 | extraction of two joined messages is the extraction of each, joined |
| QQMessage.ExtractContentIsStr | nonebot/adapters/qq/message.py:608-614 | on a message of only text, emoji and mentions, escaped extraction is the full rendering |
| QQMessage.ExtractRawIsPlain | nonebot/adapters/qq/message.py:608-618 | on a text-only message, raw extraction equals the plain text |
| QQMessage.Validate | nonebot/adapters/qq/message.py:203-227 | a non-dict is rejected, as is a dict without `type`; an accepted dict has a `type` in the segment type map, its class is the mapped one and, when a class is asked for, that class; the embed, ark, reference, markdown and keyboard classes need their key in `data` |
| QQMessage.UnmappedTypesRejected | nonebot/adapters/qq/message.py:458-477 | stream, prompt-keyboard and action-button dicts are rejected as invalid types, since the map has no entry for them |
| QQMessage.ValidateAccepts | nonebot/adapters/qq/message.py:214-222 | a mapped type with its payload key present (or not needed) validates through `MessageSegment`, data kept as given |
| QQMessage.ValidateNoData | nonebot/adapters/qq/message.py:225-227 | without `data`, a class needing a payload key is rejected and any other gets the empty dict |
| QQMessage.AppendUrlAttachments | nonebot/adapters/qq/message.py:575-578 | extending one segment at a time appends exactly the image attachments of the non-empty urls |
| QQMessage.AppendEmbeds | nonebot/adapters/qq/message.py:579-580 | extending one segment at a time appends one embed segment per embed |
| QQMessage.AppendContent | nonebot/adapters/qq/message.py:573-574 | a truthy content appends its parse; an empty or missing one appends nothing |
| QQMessage.FromGuild | nonebot/adapters/qq/message.py:569-583 | with `mention_everyone` set the message opens with mention-everyone, and with an ark it ends with that ark |
| QQMessage.FromGuildMessage | nonebot/adapters/qq/message.py:569-583 | the message built step by step is mention-everyone, content, images, embeds, ark, as `FromGuild` states |
| QQMessage.FromGuildOrdered | nonebot/adapters/qq/message.py:569-583 | a built guild message has mention-everyone first, then content, images, embeds and the ark |
| QQMessage.FromGuildEveryone | nonebot/adapters/qq/message.py:571-572 | the built message holds mention-everyone exactly when `mention_everyone` is true |
| QQMessage.FromGuildImages | nonebot/adapters/qq/message.py:575-578 | the attachment segments of the built message are exactly the images of the attachments with a non-empty url |
| QQMessage.FromGuildEmbeds | nonebot/adapters/qq/message.py:579-582 | the embeds come one segment each, in order, right before the ark |
| QQMessage.MediaKind | nonebot/adapters/qq/message.py:592-596 | the segment type chosen for an attachment is one of image, audio, file and video |
| QQMessage.MediaKindMajor | nonebot/adapters/qq/message.py:593-596 | the major type before the first `/` is kept when it is a media type and becomes `file` otherwise |
| QQMessage.QQAttachmentsSpec | nonebot/adapters/qq/message.py:590-605 | every built attachment comes from an attachment with a url and has its media kind; every attachment with a url yields one |
| QQMessage.FromQQ | nonebot/adapters/qq/message.py:586-606 | without content the message is just the attachments; with content and no attachments it is the parsed content |
| QQMessage.FromQQMessage | nonebot/adapters/qq/message.py:586-606 | the message built step by step is the parsed content followed by the attachments, as `FromQQ` states |
| QQMessage.FromQQKinds | nonebot/adapters/qq/message.py:586-606 | every attachment segment of a built QQ message has one of the four media types and a non-empty url |
| SendBody.ExcludeNone | nonebot/adapters/qq/utils.py:26-27 | dropping `None` values never adds an entry |
| SendBody.ExcludeNoneSpec | nonebot/adapters/qq/utils.py:26-27 | `exclude_none` keeps exactly the entries whose value is not `None`, unchanged |
| SendBody.ExcludeNoneIdempotent | nonebot/adapters/qq/utils.py:26-27 | applying `exclude_none` twice is applying it once |
| SendBody.ExcludeNoneUnique | nonebot/adapters/qq/utils.py:26-27 | dropping entries keeps the dict's keys unique |
| SendBody.Pop | nonebot/adapters/qq/bot.py:947 | popping a missing key leaves the dict as it is; popping a present one makes it shorter |
| SendBody.PopSpec | nonebot/adapters/qq/bot.py:947 | popping a key removes exactly the entries under it, and yields a value exactly when the key is present, that value being the entry's |
| SendBody.SplitSpec | nonebot/adapters/qq/bot.py:951-961 | object and list fields become JSON parts under their own key, every other field stays form data unchanged, and each field lands on exactly one side |
| SendBody.SplitFields | nonebot/adapters/qq/bot.py:951-961 | the loop fills the files and the form data exactly as `SplitSpec` describes |
| SendBody.ParseSendMessage | nonebot/adapters/qq/bot.py:941-965 | the body built step by step is the one `_parse_send_message` returns |
| SendBody.BuildParams | nonebot/adapters/qq/bot.py:947-965 | the body built from fields without `None` values is the one shared by both trees |
| SendBody.QQSendJson | nonebot/adapters/qq/bot.py:963-964 | without a non-empty `file_image` the body is JSON holding exactly the non-`None` fields other than `file_image` |
| SendBody.QQSendMultipart | nonebot/adapters/qq/bot.py:947-962 | with a non-empty `file_image` the body is multipart: the image is the first file part, no other part or form field is named `file_image`, and every other non-`None` field lands on exactly one side |
| SendBody.UniqueValue | nonebot/adapters/qq/bot.py:947 | in a dict a key has one value |
| SendBody.ModelDict | packages/nonebot-adapter-qqguild/nonebot/adapters/qqguild/api/utils.py:8 | the exported model dict holds at most the nine declared fields, none of them `None` |
| SendBody.ModelDictShape | packages/nonebot-adapter-qqguild/nonebot/adapters/qqguild/api/utils.py:8 | the exported model dict holds only declared, set fields, each once |
| SendBody.PackagedParseSendMessage | packages/nonebot-adapter-qqguild/nonebot/adapters/qqguild/api/utils.py:7-27 | the packaged body is the shared body of the exported model dict |
| SendBody.PackagedMultipart | packages/nonebot-adapter-qqguild/nonebot/adapters/qqguild/api/utils.py:9-24 | with a non-empty image file the packaged body is multipart: the file first, an embed as a JSON part, the content as form data |
| SendBody.ModelRest | packages/nonebot-adapter-qqguild/nonebot/adapters/qqguild/api/utils.py:9 | embed and content stay in the model dict once `file_image` is popped |
| SendBody.PopScalars | nonebot/adapters/qqguild/api/utils.py:22 | once `file_image` is popped, every field that is not an object holds a string, so `v.encode` cannot fail |
| SendBody.LegacyParts | nonebot/adapters/qqguild/api/utils.py:12-22 | one part per field, in order, under the field's key and without a file name |
| SendBody.LegacyParseSendMessage | nonebot/adapters/qqguild/api/utils.py:7-26 | the body built step by step is the older tree's body |
| SendBody.LegacyAllFiles | nonebot/adapters/qqguild/api/utils.py:9-23 | with a non-empty image file the older body has no separate form data: the image first, then every other field as a part without a file name |
| GuildMessages.GuildSegStr | packages/nonebot-adapter-qqguild/nonebot/adapters/qqguild/message.py:92-149 | text, emoji and mentions render as in the qq adapter, text with no angle bracket left; attachments show their url and the local image and the reference are fixed tags |
| GuildMessages.GuildStr | packages/nonebot-adapter-qqguild/nonebot/adapters/qqguild/message.py:92-149 | a message renders as its first segment's rendering followed by the rest; what this rendering shares with the qq adapter's is stated by GuildMessages.GuildContentIsStr |
| GuildMessages.GuildContent | packages/nonebot-adapter-qqguild/nonebot/adapters/qqguild/message.py:217-224 | `extract_content` of the qqguild modules equals the qq adapter's escaped extraction |
| GuildMessages.GuildContentIsStr | packages/nonebot-adapter-qqguild/nonebot/adapters/qqguild/message.py:92-120 | on a message of only text, emoji and mentions, the qqguild rendering equals the qq adapter's rendering, and `extract_content` (lines 217-224) is that whole rendering |
| GuildMessages.GuildRenderParse | packages/nonebot-adapter-qqguild/nonebot/adapters/qqguild/message.py:176-196 | rendering a non-empty text, a mention or an emoji with a word id, and parsing the result, gives back that segment |
| GuildMessages.Image | packages/nonebot-adapter-qqguild/nonebot/adapters/qqguild/message.py:33-35 | `image(url)` builds a segment of type `attachment`, not `image`, rendering as `<attachment:url>` |
| GuildMessages.FileImage | packages/nonebot-adapter-qqguild/nonebot/adapters/qqguild/message.py:37-43 | `file_image(data)` builds a `file_image` segment holding the bytes, rendering as `<local_image>` |
| GuildMessages.MentionUserOf | packages/nonebot-adapter-qqguild/nonebot/adapters/qqguild/message.py:45-47 | the integer user id is stored as its decimal text, and the mention renders as `<@id>` |
| GuildMessages.MentionChannelOf | packages/nonebot-adapter-qqguild/nonebot/adapters/qqguild/message.py:49-51 | the integer channel id is stored as its decimal text, and the mention renders as `<#id>` |
| GuildMessages.MentionUserRoundTrip | packages/nonebot-adapter-qqguild/nonebot/adapters/qqguild/message.py:45-47 | a mention built from a non-negative id renders to text that parses back to the same mention |
| GuildMessages.PackagedReference | packages/nonebot-adapter-qqguild/nonebot/adapters/qqguild/message.py:67-81 | a message id is wrapped in a reference carrying the `ignore_error` flag; a reference model is stored unchanged; both render as `<reference>` |
| GuildMessages.PackagedFromGuild | packages/nonebot-adapter-qqguild/nonebot/adapters/qqguild/message.py:198-215 | with `mention_everyone` set the message opens with mention-everyone, and with an ark it ends with that ark |
| GuildMessages.PackagedFromGuildMessage | packages/nonebot-adapter-qqguild/nonebot/adapters/qqguild/message.py:198-215 | the message built step by step is mention-everyone, content, attachments, embeds and ark, as `PackagedFromGuild` states |
| GuildMessages.PackagedFromGuildOrdered | packages/nonebot-adapter-qqguild/nonebot/adapters/qqguild/message.py:198-215 | the packaged message is ordered like the qq one: mention-everyone, content, attachments, embeds, ark |
| GuildMessages.PackagedFromGuildAttachments | packages/nonebot-adapter-qqguild/nonebot/adapters/qqguild/message.py:205-210 | the attachment segments are exactly the `attachment` segments of the non-empty urls; no `image` segment is built |
| GuildMessages.LegacyFromGuild | nonebot/adapters/qqguild/message.py:177-198 | with `mention_everyone` set the message ends with mention-everyone; otherwise a reference, when present, comes last |
| GuildMessages.LegacyFromGuildMessage | nonebot/adapters/qqguild/message.py:177-198 | the message built step by step is content, attachments, embeds, ark, reference and then mention-everyone, as `LegacyFromGuild` states |
| GuildMessages.LegacyFrontSorted | nonebot/adapters/qqguild/message.py:179-195 | everything before mention-everyone is sorted and ranks below it |
| GuildMessages.LegacyFromGuildOrdered | nonebot/adapters/qqguild/message.py:177-198 | the older message is ordered: content, attachments, embeds, ark, reference, mention-everyone |
| GuildMessages.LegacyFromGuildEveryone | nonebot/adapters/qqguild/message.py:196-197 | the older message holds mention-everyone exactly when the guild message says so, and then it is the last segment |
| GuildBot.Bot.constructor | packages/nonebot-adapter-qqguild/nonebot/adapters/qqguild/bot.py:85-91 | a new bot holds its info, no user, no session id and no sequence, so it is neither ready nor has a sequence |
| GuildBot.Bot.SessionId | packages/nonebot-adapter-qqguild/nonebot/adapters/qqguild/bot.py:93-101 | the session id can be read exactly when the bot is ready, and is the one stored |
| GuildBot.Bot.SelfInfo | packages/nonebot-adapter-qqguild/nonebot/adapters/qqguild/bot.py:107-111 | the bot's own user can be read exactly when one is stored |
| GuildBot.Bot.Sequence | packages/nonebot-adapter-qqguild/nonebot/adapters/qqguild/bot.py:117-125 | the sequence can be read exactly when one is stored |
| GuildBot.Bot.SetSessionId | packages/nonebot-adapter-qqguild/nonebot/adapters/qqguild/bot.py:103-105 | storing a session id makes the bot ready with that id and changes nothing else |
| GuildBot.Bot.SetSelfInfo | packages/nonebot-adapter-qqguild/nonebot/adapters/qqguild/bot.py:113-115 | storing the user makes it readable and changes nothing else |
| GuildBot.Bot.SetSequence | packages/nonebot-adapter-qqguild/nonebot/adapters/qqguild/bot.py:127-129 | storing a sequence makes it readable and changes nothing else |
| GuildBot.Bot.Clear | packages/nonebot-adapter-qqguild/nonebot/adapters/qqguild/bot.py:131-133 | clearing forgets the session id and the sequence, so both reads fail, and keeps the user |
| GuildBot.SelfIdText | packages/nonebot-adapter-qqguild/nonebot/adapters/qqguild/bot.py:44-47 | a mention is compared with the decimal text of the bot's id, or with None when it has no id |
| GuildBot.MessageEvent.constructor | packages/nonebot-adapter-qqguild/nonebot/adapters/qqguild/event.py:208-273 | to_me starts true for at-messages and direct messages and false for plain channel messages; no message is cached yet |
| GuildBot.MessageEvent.GetMessage | packages/nonebot-adapter-qqguild/nonebot/adapters/qqguild/event.py:240-243 | the first call caches the message built from the event; every later call returns the cached one, edits included |
| GuildBot.MessageEvent.Target | packages/nonebot-adapter-qqguild/nonebot/adapters/qqguild/bot.py:197-212 | a reply to the event goes by its kind, guild id, channel id and message id |
| GuildBot.CheckAtMe | packages/nonebot-adapter-qqguild/nonebot/adapters/qqguild/bot.py:38-81 | to_me becomes true exactly when it was true or the bot's id is among the mentions; the message becomes the cached one with a leading or trailing mention of the bot stripped, as the qq adapter's strip does |
| GuildBot.GuildAtMeLeading | packages/nonebot-adapter-qqguild/nonebot/adapters/qqguild/bot.py:56-62 | a leading mention of the bot is dropped and the text after it loses its leading blanks |
| GuildBot.ExtractGuildSend | packages/nonebot-adapter-qqguild/nonebot/adapters/qqguild/bot.py:142-164 | the content is sent exactly when the message's content is non-empty, and is that content |
| GuildBot.ExtractGuildEmbedLast | packages/nonebot-adapter-qqguild/nonebot/adapters/qqguild/bot.py:150-151 | an embed is sent exactly when the message has one, and it is the last embed's data |
| GuildBot.ExtractGuildArkLast | packages/nonebot-adapter-qqguild/nonebot/adapters/qqguild/bot.py:152-153 | an ark is sent exactly when the message has one, and it is the last ark's data |
| GuildBot.ExtractGuildImageLast | packages/nonebot-adapter-qqguild/nonebot/adapters/qqguild/bot.py:154-155 | an image url is sent exactly when the message has an `attachment` segment, and it is the last one's url |
| GuildBot.ExtractGuildFileImageLast | packages/nonebot-adapter-qqguild/nonebot/adapters/qqguild/bot.py:156-157 | an uploaded image is sent exactly when the message has a `file_image` segment, and it is the last one's content |
| GuildBot.ExtractGuildMarkdownLast | packages/nonebot-adapter-qqguild/nonebot/adapters/qqguild/bot.py:158-159 | a markdown is sent exactly when the message has one, and it is the last markdown's data |
| GuildBot.ExtractGuildReferenceLast | packages/nonebot-adapter-qqguild/nonebot/adapters/qqguild/bot.py:160-161 | a message reference is sent exactly when the message has a reference segment, and it is the last one's data |
| GuildBot.ExtractGuildText | packages/nonebot-adapter-qqguild/nonebot/adapters/qqguild/bot.py:142-164 | a message of one non-empty text sends only its escaped text |
| GuildBot.Send | packages/nonebot-adapter-qqguild/nonebot/adapters/qqguild/bot.py:191-212 | a reply is possible exactly for a message event with a non-zero channel id and a non-empty id; a direct message goes to the DM endpoint of its guild and any other to its channel, both with the message id and the extracted fields |
| GuildAdapter.ReceiveSpec | packages/nonebot-adapter-qqguild/nonebot/adapters/qqguild/adapter.py:372-373 | receiving from a closed socket fails as closed; otherwise one frame is consumed, and it fails as malformed exactly when the frame is not a JSON object; a success is that frame's decoded payload |
| GuildAdapter.UserOf | packages/nonebot-adapter-qqguild/nonebot/adapters/qqguild/api/model.py:22-28 | a validated user has an id exactly when the data carries an integer id |
| GuildAdapter.ReadyOf | packages/nonebot-adapter-qqguild/nonebot/adapters/qqguild/event.py:116-121 | a READY event validates only with an integer version, and its session id is the data's session_id text |
| GuildAdapter.ClassName | packages/nonebot-adapter-qqguild/nonebot/adapters/qqguild/event.py:382-412 | an event type is parsed as the class registered for it, or as the base Event when none is |
| GuildAdapter.ParseEvent | packages/nonebot-adapter-qqguild/nonebot/adapters/qqguild/adapter.py:375-383 | a parsed event carries the class for its type, the type and the data; a READY event parses exactly when its fields validate, any other exactly when its class accepts the data |
| GuildAdapter.Socket.constructor | packages/nonebot-adapter-qqguild/nonebot/adapters/qqguild/adapter.py:152-156 | a new connection has the given frames to receive and nothing sent |
| GuildAdapter.Socket.Send | packages/nonebot-adapter-qqguild/nonebot/adapters/qqguild/adapter.py:262 | a send appends the payload to what was sent when it goes through and leaves the frames to receive alone |
| GuildAdapter.Adapter.constructor | packages/nonebot-adapter-qqguild/nonebot/adapters/qqguild/adapter.py:46-52 | a new adapter has its event classes, no connected bot and no event handled |
| GuildAdapter.Receive | packages/nonebot-adapter-qqguild/nonebot/adapters/qqguild/adapter.py:372-373 | receiving is the receive function on the frames, and sends nothing |
| GuildAdapter.HelloOf | packages/nonebot-adapter-qqguild/nonebot/adapters/qqguild/adapter.py:220-236 | the heartbeat interval is known exactly when the first frame decodes as a Hello, and is the one it announces |
| GuildAdapter.ReceiveHello | packages/nonebot-adapter-qqguild/nonebot/adapters/qqguild/adapter.py:220-236 | the hello consumes one frame and yields its interval, or nothing when the frame is no Hello |
| GuildAdapter.Authorization | packages/nonebot-adapter-qqguild/nonebot/adapters/qqguild/adapter.py:369-370 | the authorization is "Bot ", the bot id, a dot and the token |
| GuildAdapter.Handshake | packages/nonebot-adapter-qqguild/nonebot/adapters/qqguild/adapter.py:239-261 | without a session the handshake is an Identify with the token, the intents and the shard; with one it is a Resume with the token, the session id and the sequence; it fails exactly when a session is held without a sequence |
| GuildAdapter.AuthSpec | packages/nonebot-adapter-qqguild/nonebot/adapters/qqguild/adapter.py:239-305 | a handshake that raises or returns false hands nothing on and keeps the session id and own user; a successful one leaves a session id |
| GuildAdapter.Authenticate | packages/nonebot-adapter-qqguild/nonebot/adapters/qqguild/adapter.py:239-305 | the result, the frames sent and left, the session id, sequence and own user, and the events handed on are those of `AuthSpec`; a failed send returns false; a resume reads nothing and succeeds; an identify reads one reply, stores its sequence if it is a dispatch, and succeeds only on a READY event, which stores the session id and user and is handed on; on success the bot is connected, and a sound session stays sound |
| GuildAdapter.LoopSpec | packages/nonebot-adapter-qqguild/nonebot/adapters/qqguild/adapter.py:319-361 | the loop leaves a suffix of the frames, and fails only on a closed socket or a malformed frame |
| GuildAdapter.Loop | packages/nonebot-adapter-qqguild/nonebot/adapters/qqguild/adapter.py:319-361 | the receive loop ends, leaves the frames, session and sequence, and hands on the events that the loop function gives; it sends nothing and keeps the bot's user |
| GuildAdapter.LoopAdvance | packages/nonebot-adapter-qqguild/nonebot/adapters/qqguild/adapter.py:321-361 | one turn of the loop either keeps the loop invariant or ends where the loop function ends it: a failure, a Reconnect or an InvalidSession (which clears the session) ends it |
| GuildAdapter.LoopAdvanceDispatch | packages/nonebot-adapter-qqguild/nonebot/adapters/qqguild/adapter.py:327-340 | a dispatch stores its sequence, hands on its event when it validates, and the loop continues |
| GuildAdapter.LoopAdvanceSkip | packages/nonebot-adapter-qqguild/nonebot/adapters/qqguild/adapter.py:341-361 | a heartbeat ack or any other payload is skipped and the loop continues |
| GuildAdapter.LastSequenceCons | packages/nonebot-adapter-qqguild/nonebot/adapters/qqguild/adapter.py:327-328 | the sequence after a frame and then more frames is that after the more frames, starting from the frame's own sequence |
| GuildAdapter.ConsumedStep | packages/nonebot-adapter-qqguild/nonebot/adapters/qqguild/adapter.py:321-361 | a frame that does not end the loop is consumed, and the rest is the loop on the remaining frames |
| GuildAdapter.LoopSession | packages/nonebot-adapter-qqguild/nonebot/adapters/qqguild/adapter.py:327-356 | the loop keeps the session id unless it ends by InvalidSession, which clears the session id and the sequence; otherwise the sequence is that of the last dispatch consumed |
| GuildAdapter.LastSequenceKeeps | packages/nonebot-adapter-qqguild/nonebot/adapters/qqguild/adapter.py:327-328 | a held sequence stays held through any frames |
| GuildAdapter.LoopSound | packages/nonebot-adapter-qqguild/nonebot/adapters/qqguild/adapter.py:319-361 | a session that can resume before the loop can still resume after it |
| GuildAdapter.LoopEvents | packages/nonebot-adapter-qqguild/nonebot/adapters/qqguild/adapter.py:327-340 | the events handed on are exactly the validated events of the consumed dispatches, in order |
| GuildAdapter.HeartbeatFrame | packages/nonebot-adapter-qqguild/nonebot/adapters/qqguild/adapter.py:307-317 | a heartbeat is sent exactly when a sequence is held, and it carries that sequence |
| GuildAdapter.HeartbeatTick | packages/nonebot-adapter-qqguild/nonebot/adapters/qqguild/adapter.py:307-317 | one heartbeat pass sends the heartbeat frame when there is one and the send goes through, and receives nothing |
| GuildAdapter.Connect | packages/nonebot-adapter-qqguild/nonebot/adapters/qqguild/adapter.py:144-218 | a connection stops at the hello exactly when no non-zero interval is announced, having sent nothing and handed nothing on; otherwise the frames sent and the own user are those `AuthSpec` gives on the frames after the hello, a handshake that raises or returns false ends the pass with its state, and a successful one is followed by `LoopSpec` on the frames it left and the session it set, whose end, frames left, session, sequence and events (after the READY's) the pass ends with; the handshake never fails on reading the sequence; the session stays sound; the bot is disconnected at the end; after a Reconnect the session is kept and after an InvalidSession it is gone |
| GuildAdapter.ShardCount | packages/nonebot-adapter-qqguild/nonebot/adapters/qqguild/adapter.py:133 | the shard count is the gateway's count, or 1 when that is missing or zero |
| GuildAdapter.PlanShards | packages/nonebot-adapter-qqguild/nonebot/adapters/qqguild/adapter.py:99-142 | no connection is opened exactly when the gateway request failed, its url is empty, or the session start limit is exhausted; a configured shard is the only one; otherwise one connection per shard, numbered in order |
| LegacyAdapter.Connect | nonebot/adapters/qqguild/adapter.py:126-262 | any Hello lets the connection go on, whatever its interval; the handshake is the packaged one, the bot is connected as soon as it is sent, and the receive loop runs on the remaining frames; the session id changes only by an InvalidSession, so a bot without one never becomes ready; the bot is disconnected at the end |
| Transformers.Dump | packages/nonebot-adapter-qqguild/nonebot/adapters/qqguild/transformer.py:21-29 | a model dump has one entry per field in declaration order, keyed by alias or by name; excluding None leaves no None value |
| Transformers.DumpExcludes | packages/nonebot-adapter-qqguild/nonebot/adapters/qqguild/transformer.py:21-29 | excluding None keeps exactly the fields whose value is not None |
| Transformers.ExcludeNoneDict | packages/nonebot-adapter-qqguild/nonebot/adapters/qqguild/transformer.py:9-29 | the result has no None value, keeps every field that is not None, and holds nothing else, whatever the caller asks |
| Transformers.BoolToIntDict | packages/nonebot-adapter-qqguild/nonebot/adapters/qqguild/transformer.py:32-56 | the dump keeps its keys and order; each top-level bool becomes 1 or 0 and every other value stays, so no bool is left |
| Transformers.IntToStrDict | packages/nonebot-adapter-qqguild/nonebot/adapters/qqguild/transformer.py:59-83 | the dump keeps its keys and order; each top-level int becomes its decimal text, each bool "True" or "False", and every other value stays, so no int or bool is left |
| Transformers.IntToStrInjective | packages/nonebot-adapter-qqguild/nonebot/adapters/qqguild/transformer.py:80-82 | different integers give different texts, so the rewrite loses no information |
| Transformers.AliasExportDict | packages/nonebot-adapter-qqguild/nonebot/adapters/qqguild/transformer.py:86-106 | the dump is always keyed by alias, whatever the caller asks; without exclusion it is every field in order, with exclusion exactly the fields that are not None |
| ForumModel.InferredType | nonebot/adapters/qq/models/guild.py:284-347 | the inferred type is text when text is present, else image, else video, else url, else unsupported, each exactly so |
| ForumModel.InferType | nonebot/adapters/qq/models/guild.py:332-347 | a type that is given and not None is kept with nothing changed; otherwise the inferred type is stored under type; no other key changes |
| ForumModel.ParseRaw | nonebot/adapters/qq/models/guild.py:379 | rich-text parsing fails exactly when the text does not decode, and otherwise yields the decoded value |
| ForumModel.ParseContent | nonebot/adapters/qq/models/guild.py:376-380 | a string content is parsed as rich text; any other value passes unchanged |
| ForumModel.ParseTitle | nonebot/adapters/qq/models/guild.py:390-394 | a string title is parsed as rich text only when the title type is rich text; otherwise it passes unchanged |
| CodegenSource.UnescapeEscapeToken | codegen/source.py:58 | unescaping a reference token (~1 to /, then ~0 to ~) undoes the escaping of any key, and an escaped key holds no slash |
| CodegenSource.PyIndex | codegen/source.py:60-68 | an index is valid exactly from minus the length up to the length; a negative one counts from the end |
| CodegenSource.Step | codegen/source.py:57-72 | a dict is stepped into by key, as a get does |
| CodegenSource.Pointer | codegen/source.py:48-74 | a fragment that is only slashes, or empty, gives the whole document; a failure names the fragment without its leading slashes |
| CodegenSource.ResolveFragment | codegen/source.py:48-74 | the loop over the tokens resolves the fragment as the pointer function does |
| CodegenSource.PointerSlashes | codegen/source.py:49 | one more leading slash changes nothing |
| CodegenSource.StepIndex | codegen/source.py:60-68 | a token that reads as an integer in range picks that element of a list, counting from the end when negative |
| CodegenSource.ParseNegative | codegen/source.py:62-64 | `int` reads a minus sign followed by decimal digits as minus their value |
| CodegenSource.ParseIntLoose | codegen/source.py:62-64 | `int` ignores surrounding whitespace and single underscores between digits: " 1_0 " reads as 10 |
| CodegenSource.PlainDigits | codegen/source.py:62-64 | a run of decimal digits is a well-formed literal whose value, underscores skipped, is its plain decimal value |
| CodegenSource.ParseNatToStr | codegen/source.py:62-64 | reading back the decimal text of a natural number gives the number |
| CodegenSource.RStripPrefix | codegen/source.py:62-64 | what the trailing strip inside `int` leaves is a prefix of the token |
| PyStr.LStripSuffix | nonebot/adapters/qq/event.py:395 | what `lstrip` leaves is a suffix of the text |
| CodegenSource.PointerRoundTrip | codegen/source.py:48-74 | a pointer written from a path of escaped keys, the first non-empty, resolves along exactly those keys |
| CodegenSource.DropFragment | codegen/source.py:21 | a URL without its fragment holds no # |
| CodegenSource.SourceCache.constructor | codegen/source.py:15 | the cache starts empty |
| CodegenSource.SourceCache.FromSource | codegen/source.py:26-46 | a cached URL, without its fragment, returns the cached source and changes nothing; otherwise a document that loads is cached under that URL and returned, and one that does not fails and caches nothing |
| CodegenSource.SourceCache.Resolve | codegen/source.py:20-24 | resolving returns what loading the joined URL without its fragment returns, with the same effect on the cache |
| CodegenModel.SnakeToPascal | codegen/model.py:13-14 | with upper-casing limited to ASCII letters, converting never lengthens the name, and a name not starting with a newline starts with its first character upper-cased |
| CodegenModel.SnakeToPascalWords | codegen/model.py:13-14 | underscore-joined words of word characters become the words capitalized and concatenated |
| CodegenModel.Annotation | codegen/model.py:26-79 | the scalar types annotate as the Python builtins `bool`, `int`, `float` and `str` |
| CodegenModel.NestedAnnotation | codegen/model.py:26-31 | n nested arrays render as n List[ openings around the item's annotation and n closings |
| CodegenModel.PropertyType | codegen/model.py:69 | a property lookup finds an entry of that name, and fails exactly when no property has the name |
| CodegenModel.PropertyAnnotation | codegen/model.py:68-72 | a property's annotation is its type's annotation, wrapped in Optional exactly when the property is not required; a missing property raises |
| CodegenModel.ParamAnnotation | codegen/model.py:87-108 | a parameter's annotation is its type's annotation, wrapped in Optional exactly when it is not required |
| CodegenModel.Registry.constructor | codegen/model.py:10 | the registry of object schemas starts empty |
| CodegenModel.Registry.NewObject | codegen/model.py:55-63 | constructing an object schema registers it under its name, replacing an earlier one in place |
| CodegenModel.RegisterSpec | codegen/model.py:61-63 | after registering, the name holds the new schema, the names stay unique, and every other entry is kept |
| CodegenGenerator.UpdateAllSpec | codegen/generator.py:23 | updating a dict with another keeps only entries of the two, has exactly the keys of both, and keeps keys unique |
| CodegenGenerator.SortModels | codegen/generator.py:10-27 | the result holds only object schemas, each under its own name and reached from the input, with each name once; when schemas sharing a name are the same, every reached object is present and comes after every model its properties reach |
| CodegenResolve.FragmentOf | codegen/parse.py:19-23 | a reference with a # is its URL part, the #, and the fragment; one without has an empty fragment |
| CodegenResolve.Hop | codegen/parse.py:19-23 | following a reference gives the fragment-less joined URL, whose document loaded, and the value the fragment points at there; it fails only by a load failure or an unresolvable fragment |
| CodegenResolve.Seed | codegen/parse.py:28-31 | an object schema starts named after its location joined with _ and typed object; any other dict starts empty |
| CodegenResolve.ResolveRef | codegen/parse.py:16-41 | a value that is neither a dict nor a list is returned as it is |
| CodegenResolve.ResolveItems | codegen/parse.py:35-39 | a resolved list is a list with one item per input item |
| CodegenResolve.RefReplaces | codegen/parse.py:18-26 | a dict with a reference is replaced by the reference's target: its other keys and its location make no difference |
| CodegenResolve.ResolveItemsAt | codegen/parse.py:35-39 | each item of a resolved list is the matching item resolved at the location extended by its index |
| CodegenResolve.ResolveFieldsKeys | codegen/parse.py:32-34 | a resolved dict has exactly the seeded keys and the input's keys, and a key the input lacks keeps its seeded value |
| CodegenResolve.ObjectSchemaNamed | codegen/parse.py:27-34 | a resolved object schema is named after its location unless it names itself, typed object unless it says otherwise, and keeps every key it had |
| CodegenResolve.Resolver.constructor | codegen/parse.py:13 | the resolver starts with the given sources, current at the root document |
| CodegenResolve.Resolver.Load | codegen/parse.py:19-23 | loading through the cache gives what following the reference gives, and the cache stays well formed |
| CodegenResolve.Resolver.Resolve | codegen/parse.py:16-41 | the recursive resolver with its context variable computes the resolve function against the source current at the call, and leaves that source current afterwards |
| CodegenParse.RequiredList | codegen/model.py:59 | a missing required list means none is required; a present one must be a list, and gives one name per item |
| CodegenParse.Convert | codegen/parse.py:44-49 | what is not a dict converts to nothing and leaves the registry alone; a scalar type converts without registering anything |
| CodegenParse.ConvertRegisters | codegen/parse.py:46 | converting a schema keeps the registry's names unique and never drops one, and a converted object ends up registered under its name |
| CodegenParse.ModelRegistered | codegen/parse.py:44-49 | a schema that converts to an object leaves it registered under its own name, the names unique and none lost |
| CodegenParse.SplitLast | codegen/parse.py:91 | the last piece of a split is what follows the last separator |
| CodegenParse.HttpsPath | codegen/parse.py:90-91 | the path urlparse gives for an https URL is what follows its host |
| CodegenParse.ApiNameOf | codegen/parse.py:89-94 | a documentation URL https://host/dir/page.html names the API after the page, with - turned into _ |
| Json.DictGet | codegen/parse.py:85 | a get with a default fails exactly on what is not a dict, with the error its caller names; a missing key gives the default and a found value is stored under the key |
| CodegenParse.ReturnFallback | codegen/parse.py:147-153 | the return schema is the 200 response's when that one is not empty, and the default response's otherwise |
| CodegenParse.ParamList | codegen/parse.py:99 | an operation's parameters are the path item's common ones followed by its own |
| CodegenParse.OptionalModel | codegen/parse.py:142-158 | an empty schema gives no type and registers nothing; any other is converted as a schema is |
| CodegenParse.ParamsFrom | codegen/parse.py:100-133 | the parameter loop yields at most as many parameters as it was given |
| CodegenParse.ParamOfPlain | codegen/parse.py:108-130 | a parameter given in place lands in the list its in names, under its own name, or nowhere when in names another place |
| CodegenParse.ParamsStep | codegen/parse.py:100-133 | one turn of the parameter loop appends the parameter to the path or query list its kind names, and the loop goes on |
| CodegenParse.Partition | codegen/parse.py:96-133 | for parameters given in place, the path list holds the in: path ones and the query list the in: query ones, each in order, and every other kind is dropped |
| CodegenParse.ApiOf | codegen/parse.py:71-170 | an entry that is not an HTTP method, or an operation without a documentation URL, gives no API and registers nothing; an API is named after its documentation URL and carries the method and the path |
| CodegenParse.Finish | codegen/parse.py:135-170 | an API carries its name, method, path and the parameters collected |
| CodegenParse.OpsFromApis | codegen/parse.py:71-170 | every API of a path item comes from one of its HTTP-method entries and carries the item's path |
| CodegenParse.PathsFromApis | codegen/parse.py:61-173 | every API comes from an HTTP-method entry and carries one of the document's paths |
| CodegenParse.ParseSpec | codegen/parse.py:52-174 | a document that is not a dict is malformed; a dict with neither `components` nor `paths` parses to no APIs and registers nothing |
| CodegenParse.ParseApis | codegen/parse.py:52-174 | only HTTP-method entries become APIs, and each API's path is one of the document's paths |
| CodegenParse.SchemaToModel | codegen/parse.py:44-49 | converting a schema against the current source gives the model function's result and registry, and leaves the current source as it was |
| CodegenParse.ParseParam | codegen/parse.py:100-133 | one parameter, resolved through the cache when it is a reference, is parsed as the parameter function says; the current source is restored |
| CodegenParse.ParseOptional | codegen/parse.py:142-158 | an optional schema is converted as the optional-model function says |
| CodegenParse.ParseParams | codegen/parse.py:96-133 | the parameter loop computes the parameter-loop function |
| CodegenParse.FinishApi | codegen/parse.py:135-170 | the body and the return type are converted as the finishing function says |
| CodegenParse.ParseOperation | codegen/parse.py:71-170 | one entry of a path item is parsed as the operation function says |
| CodegenParse.ParseOps | codegen/parse.py:71-170 | the loop over a path item's entries computes the entry-loop function |
| CodegenParse.ParsePathItem | codegen/parse.py:61-173 | one path item, resolved through the cache when it is a reference, gives the APIs the path-item function gives; the current source is restored |
| CodegenParse.ParseComponents | codegen/parse.py:56-58 | the loop over the component schemas computes the component-loop function |
| CodegenParse.ParsePaths | codegen/parse.py:60-173 | the loop over the paths computes the path-loop function |
| CodegenParse.Parse | codegen/parse.py:52-174 | parsing converts the component schemas, then collects the APIs of every path, as the parse function says; the root stays the current source |
| CodegenClient.IndentLine | codegen/gen_api_client.py:51 | indenting gives a line ended by a newline the prefix unless it is blank, and indents the text after it on its own |
| CodegenClient.IndentLast | codegen/gen_api_client.py:51 | a last line without a newline gets the prefix unless it is blank |
| CodegenClient.IndentStart | codegen/gen_api_client.py:94 | a text starting with a non-blank lead without a newline comes out starting with the prefix and the lead |
| CodegenClient.IndentLength | codegen/gen_api_client.py:51 | indenting never shortens the text |
| CodegenClient.TypeLines | codegen/gen_api_client.py:57-73 | generating a type only appends to the list of model classes |
| CodegenClient.PropsFrom | codegen/gen_api_client.py:37-54 | rendering the properties of an object only appends to the list of model classes, and when every property renders the result is the class name, with the class header placed after the classes its properties declared and followed by one line per property |
| CodegenClient.ObjectClass | codegen/gen_api_client.py:34-54 | an object schema renders as its own name; its class header comes after every class its properties declared and is followed by exactly one line per property, at the end of the list |
| CodegenClient.ObjectProperties | codegen/gen_api_client.py:34-54 | when an object schema renders, the list ends with one line per property, in the schema's order, each indented by four spaces and reading `name: T` for a required property and `name: Optional[T] = None` otherwise, where `T` is the annotation the property's own schema renders as under `<class>_<property>` |
| CodegenClient.AnnotationFree | codegen/gen_api_client.py:57-73 | the annotation a schema renders as, or the error it raises, is the same whatever classes were declared before it |
| CodegenClient.LeafTypes | codegen/gen_api_client.py:57-73 | a schema with a string `$ref` renders as the ref's last `/` segment; an empty dict renders as `None`; a type other than object, array and the mapped scalars raises the unknown-type error; none of these declares a class |
| CodegenClient.ArrayAndScalar | codegen/gen_api_client.py:65-73 | an array renders as List of its items under the same name, fails without items, and a scalar type renders as the type map says |
| CodegenClient.ArgsTextJoin | codegen/gen_api_client.py:99-135 | the arguments as the signature text grows are their bodies joined by commas, with one comma more |
| CodegenClient.RenderArgs | codegen/gen_api_client.py:137-149 | a signature with arguments lists them separated by commas after the head, with nothing trailing before the parenthesis |
| CodegenClient.ParamArgsCount | codegen/gen_api_client.py:99-110 | the parameters become one argument each, in order, each defaulting to =... or to nothing |
| CodegenClient.SignatureArgs | codegen/gen_api_client.py:94-149 | the arguments are keyword-only exactly when the operation has parameters; the parameters come first, one argument each, and the head is the indented async def line |
| CodegenClient.HeadStart | codegen/gen_api_client.py:94 | the head starts the indented async def line, whatever the name |
| CodegenClient.RenderShape | codegen/gen_api_client.py:94-149 | every signature is one indented async def line ending in ": ..." |
| CodegenClient.BodyArgsShape | codegen/gen_api_client.py:124-135 | the body's properties become arguments one for one, in the schema's order, each defaulting to = ... exactly when it is not required |
| CodegenClient.OperationKeeps | codegen/gen_api_client.py:83-150 | one operation only adds well-formed stubs and only appends to the model classes |
| CodegenClient.ClientOut | codegen/gen_api_client.py:76-150 | a document that is not a dict is a shape error; one without `paths` gives no model classes and only the class line |
| CodegenClient.ClientWellFormed | codegen/gen_api_client.py:76-150 | whatever the document, the client class opens with its class line and holds only async def stubs |
| CodegenClient.ClientGenerator.constructor | codegen/gen_api_client.py:77-78 | the generator starts with no model classes and only the client class line |
| CodegenClient.ClientGenerator.GenerateType | codegen/gen_api_client.py:57-73 | generating a type gives the annotation and the classes the type function gives, and adds no definition |
| CodegenClient.ClientGenerator.GenerateObject | codegen/gen_api_client.py:34-54 | generating an object schema keeps its class aside and appends it after its properties' classes, as the type function says |
| CodegenClient.ClientGenerator.ParamsPart | codegen/gen_api_client.py:99-110 | the parameters loop grows the text by one argument per parameter, as the parameter function says |
| CodegenClient.ClientGenerator.BodyPart | codegen/gen_api_client.py:112-135 | the body loop grows the text by one argument per property of the body schema, as the body function says |
| CodegenClient.ClientGenerator.GenerateParams | codegen/gen_api_client.py:94-110 | the text is the head, the keyword-only mark when there are parameters, and one argument per parameter |
| CodegenClient.ClientGenerator.GenerateArgs | codegen/gen_api_client.py:94-135 | the text is the head, the keyword-only mark, and the parameters' arguments followed by the body's |
| CodegenClient.ClientGenerator.GenerateSignature | codegen/gen_api_client.py:94-149 | the signature text grown step by step is the rendered signature of the operation |
| CodegenClient.ClientGenerator.GenerateOperation | codegen/gen_api_client.py:84-150 | an operation without a documentation URL is skipped; any other adds its signature, as the operation function says |
| CodegenClient.ClientGenerator.GenerateOps | codegen/gen_api_client.py:83-150 | the loop over a path item's entries computes the entry-loop function |
| CodegenClient.ClientGenerator.GenerateClient | codegen/gen_api_client.py:76-150 | walking the whole document gives the lists the client function gives, and the definitions are well formed |
| CodegenClient.RenderSteps | codegen/gen_api_client.py:137-149 | taking off the last comma and adding the parenthesis, the return annotation and ": ..." gives the rendered signature |
| CodegenRequest.UpperStr | codegen/gen_request.py:93 | upper-casing keeps the length, upper-cases each letter and leaves no lower-case ASCII letter |
| CodegenRequest.RequestParamsCount | codegen/gen_request.py:54-66 | the parameters become one argument each, after the arguments already there |
| CodegenRequest.RequestParamAt | codegen/gen_request.py:54-66 | each parameter gives the matching argument: its name, its type from the type map, and = None when it is not required |
| CodegenRequest.BodyLines | codegen/gen_request.py:92-97 | a handler's body is six lines, opening with the request construction |
| CodegenRequest.IndentJoin | codegen/gen_request.py:91-99 | indenting lines joined by newlines, none of them blank, prefixes each line |
| CodegenRequest.StandardPlain | codegen/gen_request.py:92-97 | the fixed text of the handler body has no newline and no blank piece |
| CodegenRequest.RequestBodyText | codegen/gen_request.py:90-100 | a method and a path on one line each give the body every line of which is indented by four spaces |
| CodegenRequest.BodyStart | codegen/gen_request.py:90-100 | whatever the method and path, a body opens with its first line indented |
| CodegenRequest.LineKeeps | codegen/gen_request.py:85-86 | dropping a trailing comma and closing keeps what the text opens with and ends it with "):" |
| CodegenRequest.HandlerLineShape | codegen/gen_request.py:47-86 | every signature line opens "async def _" and closes "):" |
| CodegenRequest.DataLast | codegen/gen_request.py:81-86 | a handler taking **data keeps it last |
| CodegenRequest.HandlerSignature | codegen/gen_request.py:47-86 | the handler takes **data exactly when the body's schema is not empty, its parameters are keyword-only exactly when there are any, and each parameter gives its argument |
| CodegenRequest.NamedPut | codegen/gen_request.py:48 | naming a handler keeps the table well named |
| CodegenRequest.PairedSnoc | codegen/gen_request.py:88-100 | adding a signature line and its body keeps the definitions paired |
| CodegenRequest.EmitSound | codegen/gen_request.py:47-100 | naming a handler and adding its definitions keeps the state sound, the handler is then in the table, and a success adds exactly two definitions |
| CodegenRequest.OpsSound | codegen/gen_request.py:36-100 | the loop over a path item's entries keeps the state sound |
| CodegenRequest.PathsSound | codegen/gen_request.py:35-100 | the loop over the paths keeps the state sound |
| CodegenRequest.RequestsOut | codegen/gen_request.py:29-100 | a document that is not a dict is a shape error; one without `paths` gives no handlers and no definitions |
| CodegenRequest.RequestsSound | codegen/gen_request.py:29-100 | whatever the document, the handler table names every handler after its operation, once per name, and the definitions alternate signature and body |
| CodegenRequest.RequestGenerator.constructor | codegen/gen_request.py:30-31 | the generator starts with no definitions, an empty handler table and the standard body text |
| CodegenRequest.RequestGenerator.AddParams | codegen/gen_request.py:54-66 | the parameters loop grows the text by one argument per parameter, as the parameter function says |
| CodegenRequest.RequestGenerator.GenerateHandler | codegen/gen_request.py:47-86 | the signature text built step by step is the handler function's line |
| CodegenRequest.RequestGenerator.GenerateOperation | codegen/gen_request.py:37-100 | one operation names its handler, then adds its signature and body, as the operation function says |
| CodegenRequest.RequestGenerator.GenerateOps | codegen/gen_request.py:36-100 | the loop over a path item's entries computes the entry-loop function |
| CodegenRequest.RequestGenerator.GenerateRequests | codegen/gen_request.py:29-101 | walking the whole document gives the definitions and table the request function gives, the table well named and the definitions paired |

## Left out

- Async plumbing and timing are not modelled: tasks, startup and shutdown, sleeps, the fixed reconnect interval and the heartbeat timer. Each pass of `_forward_ws` is one call of `Connect`, and each heartbeat is one call of `HeartbeatTick`. The source has no backoff and no heartbeat-ack deadline, and neither does the model.
- Socket I/O, the clock, HTTP replies and gateway lookups are parameters. `get_access_token` takes the current time in whole seconds.
- Ed25519 signing and verification come from a foreign library and are left out. The model keeps the seed derivation and the signature's shape check. The signing function is a parameter of the webhook reply, which is proved to carry the hex of that function's signature of the event timestamp followed by the plain token.
- QQAdapter.Ed25519Seed: requires a non-empty secret, because with an empty one the source's loop never ends.
- Logging is not modelled. `warnings.warn` in the generator is modelled only as skipping the operation.
- The REST endpoint wrappers (`@API` methods, `api/handle.py`, the client stubs) are not modelled: they are mechanical request builders. Neither are the pydantic declarations or the exception classes.
- Pydantic coercions and validation of event classes other than `ReadyEvent` are not modelled. Each adapter takes a `validates` function of the event class and the event's fields, where the frame's `id` is put under `event_id` unless the data has its own. A dispatch whose fields do not validate is dropped, as the receive loops do when `payload_to_event` raises.
- `handle_event` dispatch to plugins, `_check_reply` (an API call) and the audit-result store (parked futures) are not modelled. An audit event is only recorded in the adapter's handled list.
- `AuditResultStore` (`store.py`) is concurrency and is left out.
- The C2C author's model is not part of this model: its `id` and `user_openid` are carried as given.
- MessageParse.MatchAtText: `\w` is taken as the ASCII letters, digits and `_`. Python's `re` treats `\w` as Unicode by default, so an id with letters beyond ASCII, such as `<@李>`, is a tag in Python and plain text in the model.
- MessageParse.MatchTagText: reads ids with the same ASCII-only `\w`.
- MessageParse.FindLeftmost: finds tags with the same ASCII-only `\w`.
- MessageParse.ParseTag: reads ids with the same ASCII-only `\w`.
- MessageParse.Construct: splits text into segments with the same ASCII-only `\w`. The round trips below hold for ids made of ASCII word characters.
- QQMessage.RenderParse: the round trip is for ids of ASCII word characters, because of the same `\w`.
- GuildMessages.GuildRenderParse: the round trip is for ids of ASCII word characters, because of the same `\w`.
- MessageParse.Construct: the round trip from rendering to parsing is proved for one mention, channel or emoji tag and for escaped text. It is not proved for a whole message of several segments, because that proof did not fit the solver's budget.
- LegacyAdapter.Connect: takes the bot as given. The older `run_bot` builds it with `Bot(self, bot_info)`, which leaves out `self_id` and would raise `TypeError`. The older config has no `qqguild_bots`, so the model uses the packaged `BotInfo`.
- The older `payload.py` and the older `event.py` are not part of this model. The older adapter decodes frames with `GuildPayload`.
- The older `message.py`'s `reference()` takes a `MessageReference` as is, which is the `ByModel` case of `GuildMessages.PackagedReference`. It has no row of its own.
- JSON, YAML and URL parsing libraries are not modelled. The generator takes already-parsed `Json` documents and a `fetch` function for other sources. URL joining is a `join` parameter.
- CodegenResolve.ResolveRef: follows at most a given number of `$ref` hops (fuel). A schema that refers to itself ends in `TooDeep` instead of Python's unbounded recursion.
- CodegenGenerator.SortModels: terminates only on acyclic schemas, as in the source. Completeness and order are proved when schemas that share a name are equal.
- CodegenResolve.Resolver.Resolve: the current source is restored on an error too. In the source a raised exception skips the `ContextVar` reset, but it also ends the whole parse.
- `urlparse` is modelled only as far as the documentation URL's path. A `;params` suffix of its last segment is cut off whatever the scheme.
- CodegenSource.ResolveFragment: fragments are not percent-decoded.
- CodegenSource.Pointer: a list index is read as `int` reads it (surrounding whitespace, a sign, single underscores between digits), but only ASCII digits count. Python's `int` also accepts other Unicode decimal digits, such as Arabic-Indic ones.
- CodegenSource.ResolveFragment: reads list indices as `CodegenSource.Pointer` does, so the same limit to ASCII digits applies.
- CodegenParse.ParseOperation: the YAML integer response key `200` is modelled as the string key `"200"`.
- CodegenRequest.UpperStr: upper-cases ASCII letters only. HTTP verbs are ASCII.
- CodegenModel.SnakeToPascal: upper-cases ASCII letters only, where Python's `str.upper` is Unicode. In the source `é` becomes `É`, and `ß` becomes `SS`, which lengthens the name, so the length bound holds of the model only. Schema names are ASCII.
- CodegenModel.SnakeToPascalWords: capitalizes each word with the same ASCII-only upper-casing as CodegenModel.SnakeToPascal.
- `textwrap.indent` is modelled with lines split on `\n` only. Python also splits on `\r` and other line breaks.
- The jinja and `str.format` rendering and the file writes of `generate`, `gen_api_client.py` and `gen_request.py` are not modelled. The request body template is the parameter `CodegenRequest.Standard()`.
- `gen_request.py`'s `has_query`, `has_body` and each parameter's `in` are computed but never used, so the model drops them.
- CodegenRequest.RequestGenerator.GenerateOps: an operation that is not a dict stops with a `Shape` error, where Python raises on attribute access.
- Transformers.Dump: `exclude_none` drops `None` fields of the top level only. Pydantic also drops them inside nested models, which the model keeps as given JSON values.
- CodegenParse.ParamOf: checks that the name is a string and `required` a bool before it converts the schema. `parse.py` converts the schema first and pydantic validates afterwards, so the two differ only on error paths and in which nested models get registered before the error.
- CodegenParse.ParamOf: pydantic's coercion of `required` (such as `"yes"` or `1` to `True`) is not modelled; a `required` that is present and not a bool is an error.
- CodegenClient.ParamArgs: a parameter whose name is not a string stops with a `Shape` error. The source's f-string would render it.
- CodegenRequest.ParamArg: a parameter whose name is not a string stops with a `Shape` error. The source's f-string would render it.
- CodegenParse.UrlPath: keeps tab, CR and LF characters, which `urlparse` removes from the URL.

## Findings

| source | as written | input that shows it | evidently intended | confidence | as-written member | corrected member |
|---|---|---|---|---|---|---|
| nonebot/adapters/qqguild/adapter.py:159-246 | `_forward_ws` sends Identify or Resume and enters the receive loop without reading the READY reply, and nothing in the file sets `bot.session_id` or `bot.self_info` | a Hello, then a READY dispatch, then Reconnect: the bot is still not ready afterwards, so the next connection sends Identify again and the Resume branch (lines 174-182) never runs; `self_info` stays unset, so `_check_at_me` raises | store the session id and the user from READY, as the packaged adapter's `_authenticate` does, so that a reconnect resumes | medium, not executed | LegacyAdapter.Connect | GuildAdapter.Authenticate |
