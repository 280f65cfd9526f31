# PingPal Discord mention pipeline, modelled in Dafny

The PingPal Discord plugin watches the messages an agent receives from Discord
for mentions of one configured user:

- `handleDiscordMessage` finds the literal token `(@<user id>)` in the
  message text.
- It parses guild, channel and message ids out of the message's permalink.
- It queries the processed-mention log, then calls
  `performDiscordMentionAnalysis`.
- The analysis resolves a context. The guild and channel ids come from the
  room, else from the URL. The server name comes from the world, else from
  the room's metadata, else "Unknown Server". The sender name comes from the
  entity, else "Unknown User".
- It asks the model whether the mention is important and validates the answer
  against a two-field schema. Any failure gives the fail-safe
  `{important: false, reason: "LLM analysis failed."}`.
- It appends one `pingpal_discord_processed` record to the log.
- If the mention was classified important, it calls `sendPrivateNotification`.
  That call escapes the fields for Telegram MarkdownV2, fills in the alert
  template and hands the alert to the Telegram bot's `sendMessage`.

The model has five modules:

- `Truthiness`: `Option`, JavaScript truthiness of optional strings, and `FirstTruthy` for `a || b || fallback` chains.
- `DiscordUrl`: `parseDiscordUrl`. The regular expression `channels\/(\d+)\/(\d+)\/(\d+)` becomes an explicit scanner, proved to return the groups of the leftmost match with greedy digit runs.
- `MarkdownV2`: `escapeMarkdownV2`, with a proved inverse, the guarantee that every reserved character it emits is preceded by a backslash, and a length law.
- `NotificationHandler`: `sendPrivateNotification`. It is a method over a `TelegramOutbox` object that records every `sendMessage` call. Its outcome is specified by the function `NotificationOutcome`.
- `MessageHandler`: the two message-handler entry points.
  - They are methods of the class `PingPal`, whose state is the processed log (`log`) and the outbox.
  - Each method is proved against a specification function (`HandleOutcome`, `AnalysisOutcome`). Each method also states exactly what it appends to the log and to the outbox.
  - The class invariant `Valid()` says that every logged record is well formed and every sent alert went to a configured recipient in MarkdownV2.

Every runtime collaborator is an input, `Collaborators`:

- the room, world and entity lookups, each of which can throw or find nothing;
- the model's response;
- whether the log query and the log append throw;
- the clock (`Date.now()`);
- the Telegram service.

`parseJSONObjectFromText` is an uninterpreted function parameter. The settings
and environment variables are in `Config`.

Four behaviours of the code that the model keeps as written:

- **No deduplication.** `handleDiscordMessage` queries the log (`getMemories` with count 50 and the room id) but never reads the result. So a re-delivered message is analysed, recorded and notified again. `HandleOutcome` does not depend on the log, and `RedeliveryIsProcessedAgain` shows that the record and the alert appear twice.
- **Fail-safe reason.** Every failed or malformed model answer gets the reason `"LLM analysis failed."`.
- **Mention token.** The mention token is the literal `(@<id>)` built at messageHandler.ts:463. The comment on that line names Discord's `<@id>` form, which is not what the code looks for.
- **No abort for missing ids.** The code repeats the abort "critical context ids still missing" after the room lookup, but it can never fire. The URL ids are non-empty digit runs, and the room only overrides them with truthy values. This is proved as an assertion inside `PerformDiscordMentionAnalysis`, so the model has no such error path.

## Model

| member | source | states |
|---|---|---|
| Truthiness.FirstTruthy | src/handlers/messageHandler.ts:242-258 | The value of an `a \|\| b \|\| fallback` chain: the first truthy candidate's value, or the fallback when all are falsy. The result is never empty when some candidate is truthy. |
| DiscordUrl.DigitRunEnd | src/handlers/messageHandler.ts:78 | The end of the digit run from an offset lies between that offset and the end of the text. |
| DiscordUrl.DigitRunEndSpec | src/handlers/messageHandler.ts:78 | The run is maximal (greedy `\d+`): everything before its end is a digit, and it is followed by the end of the text or a non-digit. |
| DiscordUrl.DigitRunEndAtLeast | src/handlers/messageHandler.ts:78 | Any run of digits from the offset ends no later than the maximal run. |
| DiscordUrl.DigitRunEndIs | src/handlers/messageHandler.ts:78 | A run of digits followed by the end of the text or a non-digit is the maximal run. |
| DiscordUrl.TryMatchWith | src/handlers/messageHandler.ts:78 | The match attempt at one offset for a literal prefix followed by three slash-separated digit runs. It has no contract of its own; the lemmas below state what it finds. |
| DiscordUrl.TryMatchAt | src/handlers/messageHandler.ts:78 | The attempt with the prefix `channels/`. No contract of its own; `TryMatchAtSound`, `TryMatchAtComplete` and `TryMatchAtGreedy` state its meaning. |
| DiscordUrl.TryMatchAtSound | src/handlers/messageHandler.ts:78-84 | A match attempt at one position succeeds only with a greedy match of `channels/G/C/M` there. |
| DiscordUrl.TryMatchAtComplete | src/handlers/messageHandler.ts:78-84 | Whenever the pattern matches at a position, the attempt succeeds there, with the same guild and channel and a message-id run at least as long. |
| DiscordUrl.TryMatchAtGreedy | src/handlers/messageHandler.ts:78-84 | A greedy match at a position is exactly what the attempt there returns. |
| DiscordUrl.GreedyUnique | src/handlers/messageHandler.ts:78 | At one position there is at most one greedy match. |
| DiscordUrl.FindMatch | src/handlers/messageHandler.ts:78 | The regular expression's search: attempts at successive offsets until one succeeds. No contract of its own; `FindMatchSpec` states its meaning. |
| DiscordUrl.FindMatchSpec | src/handlers/messageHandler.ts:78 | The scan over start positions returns the leftmost position where the pattern matches, with its greedy groups and no match between the start and that position. It returns nothing only when the pattern matches nowhere from its start. |
| DiscordUrl.NoMatchWhereTryFails | src/handlers/messageHandler.ts:78 | A failed attempt at a position means the pattern does not match there. |
| DiscordUrl.ParseDiscordUrl | src/handlers/messageHandler.ts:70-93 | An absent or empty URL gives no ids. Otherwise all three ids are non-empty digit runs, or there are none. |
| DiscordUrl.ParseFindsLeftmost | src/handlers/messageHandler.ts:78-84 | A greedy match with no match before it is exactly what the parse returns. |
| DiscordUrl.ParseIsLeftmostMatch | src/handlers/messageHandler.ts:70-93 | For a non-empty URL: the parse returns `ids` if and only if they are the groups of the leftmost greedy match. It returns nothing if and only if the pattern occurs nowhere. |
| DiscordUrl.ParseFirstOccurrence | src/handlers/messageHandler.ts:78-84 | `prefix + "channels/G/C/M" + suffix`, with no earlier match and a suffix not starting with a digit, parses to exactly G, C and M. |
| DiscordUrl.NoMatchWithoutH | src/handlers/messageHandler.ts:78 | A text with no `h` at offsets 1 to n has no match starting before n. |
| DiscordUrl.ParsePermalinkExample | src/handlers/messageHandler.ts:70-93 | `https://discord.com/channels/111/222/333` parses to guild 111, channel 222, message 333. |
| MarkdownV2.Escape | src/handlers/notificationHandler.ts:8-12 | The escaped text is as long as the input plus one backslash per reserved character. |
| MarkdownV2.EscapeAppend | src/handlers/notificationHandler.ts:11 | Escaping distributes over concatenation (the replace is global and character-wise). |
| MarkdownV2.EscapeNoReserved | src/handlers/notificationHandler.ts:11 | Text without reserved characters is unchanged; this includes backslashes, which are not escaped. |
| MarkdownV2.EscapeHead | src/handlers/notificationHandler.ts:11 | Escaped text never starts with a reserved character. |
| MarkdownV2.EscapedReservedArePreceded | src/handlers/notificationHandler.ts:8-12 | Every reserved character in escaped text stands right after a backslash. |
| MarkdownV2.UnescapeEscape | src/handlers/notificationHandler.ts:8-12 | Round trip: dropping the inserted backslashes gives back the original text. |
| MarkdownV2.EscapeTrailingPeriod | src/handlers/notificationHandler.ts:11 | Plain words followed by a period: only the period gains a backslash. |
| MarkdownV2.EscapeOneReserved | src/handlers/notificationHandler.ts:11 | A single reserved character becomes a backslash followed by that character. |
| MarkdownV2.EscapeDeadlineExample | src/handlers/notificationHandler.ts:88 | The reason "deadline today." is escaped to `deadline today\.`. |
| NotificationHandler.Template | src/handlers/notificationHandler.ts:93 | The fixed alert layout with its five fields, already escaped. No contract of its own; `LinkIsLastAndUnescaped` and `DeadlineReasonRendered` are about it. |
| NotificationHandler.ComposeNotificationText | src/handlers/notificationHandler.ts:78-93 | The alert text: the falsy sender, server and text replaced by their placeholders, those three and the reason escaped, the link left as it is. No contract of its own; the placeholder and link lemmas are about it. |
| NotificationHandler.TargetTelegramUserId | src/handlers/notificationHandler.ts:63-65 | The Telegram recipient: the truthy setting wins, then the truthy environment variable; it is empty exactly when both are falsy. |
| NotificationHandler.NotificationOutcome | src/handlers/notificationHandler.ts:47-126 | Without a service: ServiceNotFound. Without a recipient: RecipientNotConfigured. A handle without `sendMessage` and with a recipient: ServiceStructureUnexpected (thrown and caught). A message is sent if and only if the service has `sendMessage` and a recipient is set. The message goes to that recipient, in MarkdownV2, with the composed alert text. |
| NotificationHandler.TelegramOutbox.constructor | src/handlers/notificationHandler.ts:106-114 | A new outbox holds no messages and satisfies its invariant. |
| NotificationHandler.SendPrivateNotification | src/handlers/notificationHandler.ts:30-158 | Follows the source's order of checks. It returns the specified outcome and appends exactly the sent message, if any, to the outbox. It never fails and keeps the outbox invariant. |
| NotificationHandler.UnknownUserSurvivesEscaping | src/handlers/notificationHandler.ts:78-86 | The sender placeholder "Unknown User" is unchanged by escaping. |
| NotificationHandler.UnknownServerSurvivesEscaping | src/handlers/notificationHandler.ts:78-86 | The server placeholder "Unknown Server" is unchanged by escaping. |
| NotificationHandler.NoContentSurvivesEscaping | src/handlers/notificationHandler.ts:78-86 | The text placeholder "No message content" is unchanged by escaping. |
| NotificationHandler.LinkIsLastAndUnescaped | src/handlers/notificationHandler.ts:87-93 | The alert ends with `[Link to Discord Message](<link>)`, with the link not escaped. |
| NotificationHandler.DeadlineReasonRendered | src/handlers/notificationHandler.ts:88-93 | The alert for reason "deadline today." shows `deadline today\.` in the reason line. |
| MessageHandler.TargetDiscordUserId | src/handlers/messageHandler.ts:451-453 | The target Discord user: the truthy setting wins, then the truthy environment value; it is empty exactly when both are falsy. |
| MessageHandler.MessageText | src/handlers/messageHandler.ts:234 | `content?.text \|\| ""`: the message text when present, else the empty text. |
| MessageHandler.MentionPattern | src/handlers/messageHandler.ts:463 | The token is `(@`, then the target id, then `)`. |
| MessageHandler.IncludesFrom | src/handlers/messageHandler.ts:464-465 | The substring test from an offset is true exactly when the pattern occurs at or after it. |
| MessageHandler.Includes | src/handlers/messageHandler.ts:462-467 | `text.includes(pattern)` is true exactly when the pattern occurs somewhere in the text. |
| MessageHandler.ResolveContext | src/handlers/messageHandler.ts:128-206 | The server name is never empty. Non-empty URL ids give non-empty context ids. Without a room, the context is the URL ids with "Unknown Server". |
| MessageHandler.ResolveRoomContext | src/handlers/messageHandler.ts:128-201 | The source's step-by-step room, world and metadata fallbacks compute `ResolveContext`. |
| MessageHandler.SenderName | src/handlers/messageHandler.ts:242-258 | The sender name is never empty. It is "Unknown User" when the entity is missing or the lookup throws. A truthy `names[0]` wins; otherwise a truthy Discord username; otherwise "Unknown User". |
| MessageHandler.ResolveSenderName | src/handlers/messageHandler.ts:242-258 | The source's step-by-step sender lookup computes `SenderName`. |
| MessageHandler.Classify | src/handlers/messageHandler.ts:284-339 | A well-typed object is taken as given, as is a string whose parse is a well-typed object. A result marked important needs the model to have said `important: true`. Anything other than a well-typed answer gives the fail-safe. |
| MessageHandler.RecordText | src/handlers/messageHandler.ts:356 | The record's text with the message id, the importance and the reason. No contract of its own; `WellFormed` requires every logged record's text to be it. |
| MessageHandler.BuildRecord | src/handlers/messageHandler.ts:349-371 | The `pingpal_discord_processed` record with its fields as the source lays them out. No contract of its own; `RecordWellFormed` and `AnalysisOutcome` state its fields. |
| MessageHandler.RecordWellFormed | src/handlers/messageHandler.ts:341-371 | A record built from parsed URL ids and a context with non-empty ids is well formed: digit-run message id, non-empty guild and channel, the record kind, and the text that matches its fields. |
| MessageHandler.NotificationFor | src/handlers/messageHandler.ts:399-419 | The notification step: the notifier's outcome for an important classification, nothing otherwise. No contract of its own; `NotifyIfImportant` is proved to compute it. |
| MessageHandler.NotifyIfImportant | src/handlers/messageHandler.ts:399-419 | Calls the notifier exactly when the classification is important. It returns the specified notification outcome and appends exactly the sent alert to the outbox. |
| MessageHandler.AnalysisOutcome | src/handlers/messageHandler.ts:95-430 | No URL: UrlMissing. Analysis happens if and only if the URL parses. The context is the resolved context of the URL ids, and the sender is the resolved sender name. The record carries the classification, the URL's message id, the context ids, the agent, room, clock and sender id, and the message's timestamp. It is well formed. It is logged if and only if the append does not throw. The notification is the notifier's outcome for exactly the composed details, attempted if and only if the mention is important. |
| MessageHandler.MentionAnalysis | src/handlers/messageHandler.ts:128-419 | The analysis of a mention whose URL yielded ids: context, sender, classification, record and notification in source order. No contract of its own; `AnalysisOutcome` states its meaning. |
| MessageHandler.HandleOutcome | src/handlers/messageHandler.ts:433-553 | No target: NotConfigured. NoMention if and only if the token is absent. Analysis happens if and only if there is a target, the token occurs, the URL parses and the log query does not throw. The analysis outcome does not depend on the log. |
| MessageHandler.RecentProcessed | src/handlers/messageHandler.ts:512-517 | The log query returns at most `count` records, all from the log, for this agent and room. |
| MessageHandler.PingPal.constructor | src/handlers/messageHandler.ts:433-437 | A new handler has an empty log and satisfies its invariant. |
| MessageHandler.PingPal.PerformDiscordMentionAnalysis | src/handlers/messageHandler.ts:95-430 | Computes `AnalysisOutcome`. It appends the record to the log if and only if it was recorded, and the alert to the outbox if and only if it was sent. It keeps the invariant. The abort at 208-220 is proved unreachable. |
| MessageHandler.PingPal.HandleDiscordMessage | src/handlers/messageHandler.ts:433-553 | Computes `HandleOutcome`, with exactly the log and outbox appends of its outcome, and keeps the invariant. |
| MessageHandler.UnconfiguredDoesNothing | src/handlers/messageHandler.ts:451-460 | Without a target Discord user id, nothing is logged or sent. |
| MessageHandler.WorldNameWins | src/handlers/messageHandler.ts:151-160 | A room with a worldId whose world has a name uses that name as the server name. |
| MessageHandler.MetadataNameFallback | src/handlers/messageHandler.ts:161-189 | When the world gives no name, the server name is `discord.guildName`, else `guildName`, else "Unknown Server". |
| MessageHandler.RoomIdsOverrideUrl | src/handlers/messageHandler.ts:144-145 | The room's truthy server and channel ids replace the URL's. Falsy ones leave the URL's in place. |
| MessageHandler.ThrowingModelIsRecordedNotNotified | src/handlers/messageHandler.ts:333-339 | A throwing model call still yields a record, with reason "LLM analysis failed." and not notified, and no alert. |
| MessageHandler.AppendFailureDoesNotBlockNotification | src/handlers/messageHandler.ts:373-419 | Whether the log append throws has no effect on what is sent to Telegram. |
| MessageHandler.DeadlineMentionIsRelayed | src/handlers/messageHandler.ts:399-419 | An analysed mention whose model answer is important with reason "deadline today." sends exactly one alert to the configured recipient, with the escaped reason. |
| MessageHandler.RedeliveryIsProcessedAgain | src/handlers/messageHandler.ts:512-530 | Handling the same analysed message twice logs its record twice and sends its alert twice: the log query result is never used. |

## Left out

- Logging and `console.log`: every `logger` and `console` call is omitted, since none affects control flow or state.
- The prompt text and the `useModel` call: `llmPrompt`, the output schema object and `targetUsernameOrIdForPrompt` only feed the model. The model's response is an input.
- `parseJSONObjectFromText` is an uninterpreted parameter, `parseJson`.
- JSON values are reduced to `JsonObject`. `important` is present only when it holds a boolean, and `reason` only when it holds a string. Other properties, arrays and non-object values (`OtherResponse`) are not modelled further.
- Room, world and entity lookups: their records are reduced to the fields the handler reads. Metadata values that are present but not strings are not modelled.
- `Date.now()` and the room's and entity's fetched values are inputs. The chat id is modelled as a string, and `getSetting` returning non-strings is not modelled.
- The Telegram transport: the outbox records each `sendMessage` call. A transport failure inside `sendMessage` would be caught; whether Telegram accepted the message is not modelled.
- The store: `createMemory` is an append to `log` or a caught throw. The store's own ordering, ids and `updatedAt` are not modelled.
- `MessageHandler.RecentProcessed`: the query is modelled as returning the newest records of the room first. The store's actual order is not specified, and the result is never used.
- Concurrency: each call runs to completion before the next one. Interleavings of concurrent deliveries at the `await` points are not modelled.
- The commented-out placeholder notifier at messageHandler.ts:41-66 is dead code and is not modelled.
- Plugin registration (`src/index.ts`) and event wiring are not part of this model.
- Throwing settings and logging: the `runtime.getSetting` reads (messageHandler.ts:236-237 and 452, notificationHandler.ts:64 and 150) and the `logger` calls outside a `try` (notificationHandler.ts:36) are taken as values and calls that never throw. So the catch in `handleDiscordMessage` is modelled only for the log query (`LogQueryFailed`), and a throw from the catch block of `sendPrivateNotification` is not modelled.
