# Bot-mailer relay engine in Dafny

This project models the core of Bot-mailer, a NestJS service that relays messages between a
web site and its users' Telegram chats, and proves properties about that model. The core has
four parts.

- **The relay engine**, `TelegramService`. It is modelled as the class
  `TelegramRelay.TelegramService`, with the same fields:
  - the insertion-ordered set of known chats;
  - the reply-key map from sent message to order;
  - the active orders of each chat;
  - the thirteen counters.

  The engine handles inbound webhook updates: it routes them, runs the `/start` linking flow,
  and forwards inbound texts to the site with an order id taken from the reply context. It
  sends notifications, chat-relay messages, disconnect notices and broadcasts through one send
  primitive. It reports a failure with status 403 to the site as a disconnect, and gives a
  stats snapshot.
- **The development stand-in for the site**, `MockSiteService`: a fixed table of link tokens
  and two append-only logs.
- **The two request guards**: the site-secret guard and the webhook-secret guard.

The engine's two network peers are oracle classes in `Collaborators`:
- the bot API's `sendMessage` endpoint;
- the site client.

Each call is logged and its answer is arbitrary within what the peer's code can return. The
engine also keeps a ghost log, `outbox`, of every call of its send primitive with its result.
The contracts state what each operation sends, forwards and looks up in terms of these logs.
`RequestsMatch` ties the outbox to the transport's log. When a token is set, every send goes
out as exactly one request carrying the bot token, and its result is what the engine reads from
that request's response. When no token is set, no request goes out and every send fails with no
error code.

A JavaScript `Set` keeps insertion order, so it is modelled as a sequence without repeats.
Order matters here because `Array.from(knownChats)` is the target order of an `all_known`
broadcast. `String(n)`, `split(' ')`, `trim()` and `replace` are written out in `Strings`.
`replace` is modelled for a literal pattern and a replacement without `$`, which covers its one
use, `replace('link_', '')`. A missing or empty setting (bot token, secret, site URL) counts as
not configured (`Wrappers.Filled`).

Files and modules:

| file | module | what it holds |
|---|---|---|
| `wrappers.dfy` | `Wrappers` | `Option`, `Result` |
| `collections.dfy` | `Collections` | `Set` semantics on sequences: `SetAdd`, `Dedupe` |
| `strings.dfy` | `Strings` | split, join, trim, first-occurrence replace, integer-to-text |
| `dto.dfy` | `Dto` | webhook update, request bodies, send result |
| `collaborators.dfy` | `Collaborators` | bot transport and site client oracles |
| `relay_rules.dfy` | `RelayRules` | the engine's pure rules and its state invariant |
| `telegram_service.dfy` | `TelegramRelay` | the engine class |
| `mock_site.dfy` | `MockSite` | the site stand-in class |
| `guards.dfy` | `Guards` | the two guards |
| `relay_scenarios.dfy` | `RelayScenarios` | whole-engine runs on fresh objects, matching the end-to-end tests |

## Model

All engine lines are in `src/telegram/telegram.service.ts` unless another file is named.

| member | source | states |
|---|---|---|
| Collections.SetAdd | src/telegram/telegram.service.ts:77 | `Set.add`: appends only an absent element; the element set gains exactly `x`; a repeat-free sequence stays repeat-free; nothing already present moves |
| Collections.Dedupe | src/telegram/telegram.service.ts:323-327 | `Array.from(new Set(xs))`: no repeats, exactly the elements of `xs`, never longer than `xs` |
| Collections.DedupeKeepsFirstOccurrenceOrder | src/telegram/telegram.service.ts:323-327 | the deduplicated elements come in the order of their first occurrence in the input |
| Collections.DedupeOfDistinct | src/telegram/telegram.service.ts:323-327 | deduplicating a repeat-free sequence gives it back unchanged |
| Collections.DistinctCardinality | src/telegram/telegram.service.ts:207 | for a repeat-free sequence, the set size is the length |
| Collections.FirstIndexAppend | src/telegram/telegram.service.ts:323-327 | appending an element keeps the first index of every element already present |
| Strings.Split | src/telegram/telegram.service.ts:215 | `split(sep)` has at least one part, and no part contains the separator |
| Strings.JoinSplit | src/telegram/telegram.service.ts:215 | joining the parts of a split with the separator gives back the text |
| Strings.SplitJoin | src/telegram/telegram.service.ts:215 | splitting a join of separator-free parts gives back the parts |
| Strings.SplitOfPiece | src/telegram/telegram.service.ts:215 | a separator-free piece followed by the separator is split off as the first part |
| Strings.LeadingTrimmable | src/telegram/telegram.service.ts:215 | counts leading white space, and the next character is not white space |
| Strings.TrailingTrimmable | src/telegram/telegram.service.ts:215 | counts trailing white space, and the character before it is not white space |
| Strings.Trim | src/telegram/telegram.service.ts:215 | `trim()` returns a middle slice of the text and cuts only white space; a non-empty result neither starts nor ends with white space; text without white space is returned unchanged |
| Strings.IndexOf | src/telegram/telegram.service.ts:233 | finds the first occurrence of the pattern, or none when the pattern occurs nowhere |
| Strings.ReplaceWithoutOccurrence | src/telegram/telegram.service.ts:233 | `replace` (`ReplaceFirst`) leaves a text in which the pattern occurs nowhere unchanged |
| Strings.ReplaceAtFirstOccurrence | src/telegram/telegram.service.ts:233 | for a replacement without `$`, `replace` (`ReplaceFirst`) substitutes the replacement for the first occurrence of the pattern, and keeps everything before and after it |
| Strings.ReplacePrefix | src/telegram/telegram.service.ts:233 | `replace('link_', '')` on a payload that starts with `link_` leaves exactly the rest |
| Strings.NatToString | src/telegram/telegram.service.ts:76 | the decimal numeral of `n`: at least one digit, digits only, denoting `n` (`DigitsValue`), with no leading zero |
| Strings.NatToStringInjective | src/telegram/telegram.service.ts:76 | two numbers have the same numeral if and only if they are equal |
| Strings.IntToString | src/telegram/telegram.service.ts:76 | `String(n)`: a leading minus sign exactly for negative `n`, then the numeral of the absolute value, denoting it, with no leading zero; never a colon |
| Strings.IntToStringInjective | src/telegram/telegram.service.ts:76 | two integers have the same text if and only if they are equal |
| RelayRules.ChatKeyInjective | src/telegram/telegram.service.ts:76 | `ChatKey`, i.e. `String(message.chat.id)`, gives two messages the same key if and only if they come from the same chat id |
| RelayRules.IncomingMessage | src/telegram/telegram.service.ts:71 | `message ?? edited_message`: a new message wins over an edited one |
| RelayRules.RouteOf | src/telegram/telegram.service.ts:79-115 | the linking flow if and only if the text starts with `/start`; a relay if and only if the text is non-empty and not `/start`; the media notice if and only if there is no text and there is voice, photo, document or video; nothing otherwise |
| RelayRules.StartPayload | src/telegram/telegram.service.ts:215 | the trimmed second space-separated token exactly when there is one |
| RelayRules.LinkStepOf | src/telegram/telegram.service.ts:215-233 | asks to link if and only if the payload is absent or empty; rejects if and only if the payload is non-empty without `link_`; otherwise looks up the token the payload has after the `link_` marker |
| RelayRules.NotifyText | src/telegram/telegram.service.ts:119-121 | the explicit text when given; otherwise `Event: <event>`, then a newline and the data when data is given |
| RelayRules.ChatRelayText | src/telegram/telegram.service.ts:139 | the order header `Order #<orderId>`, then the sender line `From: <from>` between a newline and a blank line, then the message text |
| RelayRules.ToSendResult | src/telegram/telegram.service.ts:278-295 | well formed; `ok` exactly for a delivered response; the message id of a delivery; the HTTP status of a client error; no code for any other error |
| RelayRules.CountSent | src/telegram/telegram.service.ts:184-194 | the number of successful deliveries is at most the number of deliveries |
| RelayRules.BlockedChats | src/telegram/telegram.service.ts:341-348 | the chats whose delivery failed with status 403, in order, at most one per delivery |
| RelayRules.CountsOfAppend | src/telegram/telegram.service.ts:184-194 | one more delivery adds one success exactly when it succeeded, and one blocked chat exactly when it failed with 403 |
| RelayRules.BroadcastStep | src/telegram/telegram.service.ts:184-194 | one more send to the next target keeps the broadcast's progress invariant; the send is its request with the result read from the response, or no request and a failure without a code when no token is set |
| RelayRules.MirroredBroadcast | src/telegram/telegram.service.ts:184-194 | a finished broadcast's deliveries went out one request per target with the token, each result read from its response; without a token, no request and every result a failure without a code |
| RelayRules.NoneSentWhenAllFail | src/telegram/telegram.service.ts:259-264 | deliveries that all failed count no success |
| RelayRules.NoBlockedWithoutStatus | src/telegram/telegram.service.ts:341-348 | deliveries without an error code signal no disconnect |
| RelayRules.ReplyKey | src/telegram/telegram.service.ts:337-339 | the key starts with the chat id, and the text before its last colon is exactly the chat id |
| RelayRules.ReplyKeyInjective | src/telegram/telegram.service.ts:337-339 | two reply keys are equal if and only if both the chat id and the message id agree |
| RelayRules.KeyChatOfSuffix | src/telegram/telegram.service.ts:337-339 | a chat id, a colon and a colon-free suffix give back the chat id |
| RelayRules.ResolveOrderId | src/telegram/telegram.service.ts:299-319 | the stored order when a truthy reply id's key holds a non-empty order; otherwise an order if and only if the chat has exactly one active order, and then that order |
| RelayRules.TrimEach | src/telegram/telegram.service.ts:325 | `map(id => String(id).trim())`: same length, each id trimmed in place |
| RelayRules.NonEmpty | src/telegram/telegram.service.ts:325 | `filter(Boolean)`: no empty string is kept, and a string is kept if and only if it is in the input and not empty |
| RelayRules.NonEmptyAppend | src/telegram/telegram.service.ts:325 | `filter(Boolean)` of a concatenation is the concatenation of the filtered parts, so each string stays where it was |
| RelayRules.NonEmptyKeepsRepeats | src/telegram/telegram.service.ts:325 | `filter(Boolean)` keeps each non-empty string as many times as the input has it |
| RelayRules.NonEmptyKeepsOrder | src/telegram/telegram.service.ts:325 | two kept strings first occur in the filtered list in the same order as in the input |
| RelayRules.CleanChatIds | src/telegram/telegram.service.ts:325 | `map(trim).filter(Boolean)`: no empty id, and an id is kept if and only if it is the trimmed form of some input id and not empty |
| RelayRules.BroadcastTargets | src/telegram/telegram.service.ts:321-335 | for a non-empty `chatIds`, the cleaned ids without repeats, whatever the segment; otherwise the known chats for `all_known` and no chat for anything else; repeat-free whenever the known chats are |
| RelayRules.ExplicitTargetsInFirstOccurrenceOrder | src/telegram/telegram.service.ts:323-327 | explicit targets come in the order in which each trimmed id first occurs in the request's `chatIds`, read at its own position |
| RelayRules.RelayState.RegisterChat | src/telegram/telegram.service.ts:77 | `knownChats.add`: the known chats gain exactly the chat; nothing is removed; the other maps are unchanged; the state invariant is kept |
| RelayRules.RelayState.RecordRelay | src/telegram/telegram.service.ts:142-153 | a reply key only for a truthy message id; the chat's active orders become exactly its old ones plus the order, even without an id; the chats with active orders gain exactly this chat; other chats are unchanged; nothing is removed; the invariant is kept for a known chat |
| RelayRules.WithReplyKey | src/telegram/telegram.service.ts:144-149 | `replyContext.set(replyKey(...), orderId)` exactly for a truthy message id; a new key belongs to the chat |
| RelayRules.WithActiveOrder | src/telegram/telegram.service.ts:150-153 | `get(chatId) ?? new Set`, then `add` and `set`: the chat's orders become exactly the old ones plus the order, keep their order and stay repeat-free; the keys gain exactly the chat; other chats are unchanged |
| RelayRules.ReplyResolvesToRelayedOrder | src/telegram/telegram.service.ts:144-149 | after a relay that got message id `m`, a reply to `m` in that chat resolves to the relayed order |
| RelayRules.FallbackResolvesSingleOrder | src/telegram/telegram.service.ts:312-318 | a relay without a message id, to a chat with no active order, resolves that chat's later messages to the relayed order |
| RelayRules.AmbiguousChatResolvesNothing | src/telegram/telegram.service.ts:312-315 | a chat with two or more active orders and no reply hit resolves no order |
| RelayRules.Counters.AfterBroadcast | src/telegram/telegram.service.ts:188-191 | broadcast counting raises the two broadcast counters by the given amounts and leaves every other counter alone |
| Collaborators.BotTransport.SendMessage | src/telegram/telegram.service.ts:266-276 | one request with the token, chat and text is logged with its outcome |
| Collaborators.SiteApi.ResolveLinkToken | src/site-api/site-api.service.ts:19-41 | no user without a site URL; the lookup is logged; nothing else changes |
| Collaborators.SiteApi.ForwardMessageFromTelegram | src/site-api/site-api.service.ts:43-69 | not accepted without a site URL; the forward is logged; nothing else changes |
| Collaborators.SiteApi.MarkUserDisconnected | src/site-api/site-api.service.ts:71-90 | the disconnect signal is logged whether or not it reaches the site |
| TelegramRelay.TelegramService.constructor | src/telegram/telegram.service.ts:42-66 | empty state that satisfies the invariant, zero counters, empty outbox |
| TelegramRelay.TelegramService.SendTextDetailed | src/telegram/telegram.service.ts:254-297 | without a token: a failure with no code and no request; with one: exactly one request to that chat with that text and the token, and the result read from its outcome; logged in the outbox either way |
| TelegramRelay.TelegramService.SendText | src/telegram/telegram.service.ts:249-252 | one send; returns its `ok` |
| TelegramRelay.TelegramService.HandlePotentialDisconnect | src/telegram/telegram.service.ts:341-348 | signals the site exactly for error code 403 |
| TelegramRelay.TelegramService.HandleStartCommand | src/telegram/telegram.service.ts:213-247 | no counter change and no forward; a lookup only for a `link_` payload, with the marker removed; exactly one reply, namely the instruction, format, expired or linked text as the step and the answer say; without a site URL the lookup answers nothing |
| TelegramRelay.TelegramService.ForwardInboundText | src/telegram/telegram.service.ts:84-107 | counts the text; one forward carrying the resolved order id; counts success or failure; one apology exactly on failure |
| TelegramRelay.TelegramService.HandleUpdate | src/telegram/telegram.service.ts:68-116 | `webhookUpdates` rises by one; an update without a message changes nothing else and sends nothing; otherwise the chat is registered and exactly one route runs, as `HandledMessage` states; never signals a disconnect; keeps the invariant |
| TelegramRelay.TelegramService.HandleMessage | src/telegram/telegram.service.ts:76-115 | registers the chat, then the route of `RouteOf`: the linking flow, the forward, the media notice with its counter, or nothing |
| TelegramRelay.TelegramService.SendNotify | src/telegram/telegram.service.ts:118-134 | registers the chat; sends the notify text once, its result read from the response; counts the outcome; signals the site only for 403; without a token fails and signals nothing |
| TelegramRelay.TelegramService.SendChatRelay | src/telegram/telegram.service.ts:136-160 | registers the chat; sends the order text once, its result read from the response; on success records the relay; on failure leaves the correlation state and signals the site only for 403; counts the outcome; without a token fails and signals nothing |
| TelegramRelay.TelegramService.AfterChatRelay | src/telegram/telegram.service.ts:142-157 | the bookkeeping of a chat-relay send: counter, relay record on success, disconnect signal on a 403 failure |
| TelegramRelay.TelegramService.RememberRelay | src/telegram/telegram.service.ts:144-153 | the new state is `RecordRelay` of the old one |
| TelegramRelay.TelegramService.SendDisconnectNotice | src/telegram/telegram.service.ts:162-175 | one send of the notice; its counter; no state change; never touches the site |
| TelegramRelay.TelegramService.BroadcastTo | src/telegram/telegram.service.ts:185-193 | one send of the broadcast text to the chat: with a token one request and the result read from its response, without one no request and a failure without a code; one broadcast counter step; a disconnect signal exactly for 403, so none without a token |
| TelegramRelay.TelegramService.SendBroadcast | src/telegram/telegram.service.ts:177-201 | one send per target, in target order; `total` is the number of targets and `sent + failed == total`; the broadcast counters grow by exactly `sent` and `failed`; the chats that fail with 403 are signalled in order; no state change; without a token no request, no success and no disconnect signal |
| TelegramRelay.TelegramService.SendToEach | src/telegram/telegram.service.ts:181-194 | the loop: the outbox gains one delivery per target, in order, with the same text, mirrored by the requests and their responses; the counts and the disconnect log follow those deliveries; without a token nothing is sent and nothing signalled |
| TelegramRelay.TelegramService.SendToNext | src/telegram/telegram.service.ts:185-193 | one turn of the loop keeps the loop invariant `Broadcasting` |
| TelegramRelay.TelegramService.GetStats | src/telegram/telegram.service.ts:203-211 | every counter, the number of known chats and reply keys, and the range echoed back; reads only |
| MockSite.MockSiteService.ResolveLinkToken | src/mock-site/mock-site.service.ts:12-27 | `valid-token` gives `test-user-1`, `valid-token-2` gives `test-user-2`, any other token gives nothing |
| MockSite.MockSiteService.SaveFromTelegram | src/mock-site/mock-site.service.ts:29-40 | appends exactly one entry with the payload's fields at the end; answers `ok` |
| MockSite.MockSiteService.MarkDisconnected | src/mock-site/mock-site.service.ts:42-45 | appends the chat id, repeats kept; answers `ok` |
| MockSite.MockSiteService.GetMessages | src/mock-site/mock-site.service.ts:47-49 | the current message log; changes nothing |
| MockSite.MockSiteService.GetDisconnectedUsers | src/mock-site/mock-site.service.ts:51-53 | the current disconnect log; changes nothing |
| MockSite.LinkLookupsOnFreshSite | test/app.e2e-spec.ts:74-87 | the two table tokens resolve to their users and `bad-token` to nothing |
| MockSite.LogsKeepArrivalOrder | src/mock-site/mock-site.service.ts:29-53 | two saved messages read back in arrival order; a repeated disconnect is kept twice |
| Guards.HeaderValue | src/auth/guards/internal-secret.guard.ts:35-41 | the first of repeated values; the empty text for an empty list or a missing header; a single value as it is |
| Guards.InternalSecretCanActivate | src/auth/guards/internal-secret.guard.ts:15-32 | service unavailable without a secret, whatever the header; otherwise accepted if and only if the header equals the secret, and unauthorized if not; never `false` |
| Guards.WebhookCanActivate | src/auth/guards/telegram-webhook.guard.ts:14-30 | accepts everything without a secret; otherwise accepted if and only if the header equals the secret, and unauthorized with the fixed message if not; never `false` |
| Guards.MissingSecretHeaderRejected | test/app.e2e-spec.ts:58-63 | the internal guard never admits a request without the header |
| Guards.MissingWebhookHeaderRejected | src/auth/guards/telegram-webhook.guard.ts:20-29 | with a webhook secret set, a request without the header is refused |
| RelayScenarios.ExplicitTargets | src/telegram/telegram.service.ts:321-327 | explicit ids that are clean and without repeats are the targets as given |
| RelayScenarios.LinkCommandStep | src/telegram/telegram.service.ts:215-233 | `/start link_<token>` asks to resolve `<token>` for any token without white space |
| RelayScenarios.BroadcastWithoutToken | src/telegram/telegram.service.ts:177-201 | with an empty bot token, a broadcast to clean, repeat-free ids fails for each id, makes no request and signals no disconnect |
| RelayScenarios.BroadcastWithoutBotToken | test/app.e2e-spec.ts:89-95 | with an empty bot token, a broadcast to ids "1" and "2" answers total 2, sent 0, failed 2, and makes no request |
| RelayScenarios.BroadcastToNoKnownChats | src/telegram/telegram.service.ts:330-332 | `all_known` on a fresh engine answers 0, 0, 0 |
| RelayScenarios.EmptyUpdateOnlyCounts | test/app.e2e-spec.ts:49-56 | an update with no message raises only `webhookUpdates`, leaves no known chat and makes no request |
| RelayScenarios.StartWithoutPayload | src/telegram/telegram.service.ts:213-223 | a bare `/start` makes one request with the instruction text to chat "42" and no lookup |
| RelayScenarios.StartWithUnknownToken | src/telegram/telegram.service.ts:233-241 | `/start link_<token>` with no site URL makes one lookup of `<token>` that answers nothing, and one request with the expired-link text |
| RelayScenarios.NotifyWithoutBotToken | test/app.e2e-spec.ts:65-72 | a notification with an empty bot token answers `false`, raises `notifyFailed` to 1 and makes no request |

## Left out

- HTTP, JSON and the bot API itself: the bot transport and the site client are oracles that log each call and may give any answer their client code can produce. How the site client builds its URLs and headers is not modelled. The site client's network errors fold into the same "no user" or "not accepted" answer, as `site-api.service.ts` does.
- `JSON.stringify` of the notify data: the data is carried as the text it serialises to.
- The logger calls, `startedAt`, and the `createdAt` time of stored messages: clocks and logging output are left out. The stats snapshot has no start time.
- `async` interleaving: each engine operation runs as one sequential step. Two requests whose awaits overlap are not modelled.
- The NestJS wiring: modules, controllers, validation pipes, the mapping of a missing link to 404, and the health endpoint. The guards are modelled as the decision they return or throw, not as middleware.
- Numbers: chat and message ids are unbounded integers. JavaScript's 2^53 precision limit and non-integer ids are not modelled.
- Strings.ReplaceFirst: `replace` is modelled with the replacement inserted as it stands. JavaScript's `$&`, `$$`, `` $` `` and `$'` patterns in a replacement string are not expanded; the one use here replaces with `''`.
- `trim()` removes the ECMAScript white-space and line-terminator code points listed in `Strings.IsTrimmable`; `String(n)` is written for integers only.
- TelegramRelay.TelegramService.HandleUpdate: "`knownChats`, `replyContext` and `activeOrdersByChat` never lose an entry" is stated on `RelayState.RegisterChat` and `RelayState.RecordRelay` (`GrowsTo`). The methods' contracts tie the new state to those functions; they do not repeat `GrowsTo` themselves.
- TelegramRelay.TelegramService.SendToEach: the counters of a broadcast are stated as a whole-record equality after the loop. Inside the loop they are tracked field by field (`AgreesOutsideBroadcast`).
