# maxbot with GigaChat sessions, in Dafny

This project models the `maxbot` chat-bot framework and the GigaChat bot built on it.

- **Typed update records.** Raw platform updates, given as JSON values, are parsed into typed records by the `from_dict` parsers.
- **Filter algebra.** Filters are boolean predicates over an update. They are a recursive datatype with an `Eval` function.
- **Dispatcher.** It keeps an ordered handler list, resolves each update to the first matching handler, and runs the long-polling cycle that advances the stream cursor (`marker`). It also manages the polling lifecycle.
- **Session store.** The GigaChat client keeps a history per session, truncates it and clears it.
- **Bot wiring.** The bot derives session ids and registers its handlers in a fixed order, which decides where each command goes.

Files, one Dafny module each:

| file | module | models |
|---|---|---|
| `wrappers.dfy` | `Wrappers` | `Optional[T]`, and "returns or raises" as `Result` |
| `json.dfy` | `Json` | the raw payload, Python truthiness, and the `dict.get(key, default)` readings the parsers use |
| `strings.dfy` | `Strings` | the parts of `str` that are used: `strip`, `split()[0]`, `split('@')[0]`, `startswith`, `in` and `str(int)` |
| `types.dfy` | `Types` | `maxbot/types.py` |
| `filters.dfy` | `Filters` | `maxbot/filters.py` |
| `dispatcher.dfy` | `Dispatching` | `maxbot/dispatcher.py`. `Handler.check` and `handle` are functions; `Dispatcher` is a class whose methods update `handlers`, `marker`, `running`, `bot` and the two hooks. |
| `gigachat.dfy` | `GigaChat` | `llm/gigachat.py`. `GigaChatClient` is a class whose `sessions` map is updated in place. A second field, `order`, keeps the dict's insertion order. |
| `bot_main.dfy` | `BotMain` | `bot/main.py`: `_get_session_id`, `_register_handlers` and the handlers that use the session store |

## How the effects are modelled

Outside effects become inputs:

- **Transport.** `get_me` becomes a boolean `identityFetched`. Each `get_updates` call becomes the `fetched` page of a `Cycle`: `None` when the fetch failed or returned nothing.
- **Handler outcomes.** Whether a handler returns or raises is a set of the handler indices that raise on an update. On a page, it is a function from record index to such a set.
- **KeyboardInterrupt.** It is the number of records dispatched before the interrupt.
- **`stop()` during a pass.** It is a flag on the cycle.
- **The GigaChat API call.** Its result is an `ApiOutcome`: raised, no choices, or answered with a content.

A run of `start_polling` is a finite script of cycles. Its last cycle ends the loop.

## Behaviour worth knowing

The model follows the code in each of these cases:

- **A raising handler.** Despite the comment "Stop after first matching handler" at `maxbot/dispatcher.py:228`, a handler that raises skips the `break`. Its exception is logged (dispatcher.py:229-230), and the scan goes on, so later matching handlers run too (`RaisingHandlerFallsThrough`, `Dispatching.Dispatched`).
- **Parsing errors.** `from_dict` raises on a structurally malformed record. Examples are `"recipient": null` (types.py:173-177), a truthy non-object `"message"` (types.py:270-272), and a truthy non-list `"attachments"` (types.py:119-120). The parsers return `Err` there. The per-record `except Exception` in `_poll_updates` (dispatcher.py:303-308) then skips that record (`Malformed`).
- **The cursor.** `_poll_updates` assigns whatever non-None marker the transport returns (dispatcher.py:310-312) and never compares it with the old one. `LatestMarker` is therefore "the last marker returned", not a maximum.
- **`max_history = 1`.** Truncating a history that starts with a system entry gives `keep_count = 0`, and `history[-0:]` is the whole list, so the list grows by the duplicated head. This is reproduced and stated in `LimitOneDuplicatesHead`.

## Model

| member | source | states |
|---|---|---|
| Types.Classify | maxbot/types.py:262-266 | Classifying never fails. The kind's string value is the input string. A string outside the twelve known names becomes `Other` of itself, and a known name never becomes `Other`. |
| Types.ClassifyKindName | maxbot/types.py:10-23 | Classifying a kind's own string value gives that kind back. |
| Types.ParseUser | maxbot/types.py:47-59 | A missing `user_id` reads as 0, `first_name` as "", `is_bot` as false, and `last_name` and `username` as None. |
| Types.FullName | maxbot/types.py:61-66 | The full name starts with the first name. It equals the first name exactly when the last name is missing or empty; otherwise a space and the last name follow. |
| Types.Mention | maxbot/types.py:68-73 | With a non-empty username the mention is "@" followed by it; otherwise it is the first name. |
| Types.ParseRecipient | maxbot/types.py:84-90 | An empty object gives a recipient with every field None. |
| Types.ParseAttachment | maxbot/types.py:100-105 | A missing `type` reads as "". |
| Types.ParseAttachments | maxbot/types.py:119-120 | The list comprehension succeeds exactly when every element is an object. It then keeps the count and the order, and element i is the parse of raw element i. |
| Types.BodyAttachments | maxbot/types.py:119-120 | Missing or falsy attachments give the empty list. A list gives the parse of its elements. |
| Types.ParseBody | maxbot/types.py:116-127 | A body parses exactly when its attachments do. It then holds those attachments, and a missing `mid` or `seq` reads as "" or 0. |
| Types.ParseMessage | maxbot/types.py:168-187 | The sender is present exactly when the raw sender is truthy. The recipient is the parse of the raw recipient or of the empty object. A non-object `recipient` or `body` raises. |
| Types.MessageUserId | maxbot/types.py:204-207 | `user_id` is None exactly when there is no sender; otherwise it is the sender's id. |
| Types.ParseCallback | maxbot/types.py:229-241 | Parsing fails exactly when a `user` is present and not an object. The callback carries the message it is given. |
| Types.ParseOptionalMessage | maxbot/types.py:268-272 | The message is present exactly when the raw `message` is present and truthy. |
| Types.ParseOptionalCallback | maxbot/types.py:274-278 | The callback is present exactly when the raw `callback` is present and truthy. It carries the message parsed for the update. |
| Types.ParseOptionalUser | maxbot/types.py:280-284 | The user is present exactly when the raw `user` is present and truthy. |
| Types.ParseUpdate | maxbot/types.py:260-296 | A non-object record raises. A parsed update keeps the raw record, and its kind spells the raw `update_type`, or "" when absent. Message, callback and user are each present exactly when their raw key is present and truthy, and the callback's message is the update's message. |
| Types.ParseUpdateKind | maxbot/types.py:262-266 | A missing `update_type` gives `Other("")`. An unknown kind string is kept verbatim. |
| Types.EmptySubRecordsAreAbsent | maxbot/types.py:268-284 | Empty objects under `message`, `callback` and `user` produce none of the three. |
| Types.EncodeAttachments | maxbot/types.py:100-105 | Encoding keeps the count, and element i encodes attachment i. |
| Types.UserRoundTrip | maxbot/types.py:47-59 | Parsing an encoded user gives the user back. |
| Types.AttachmentsRoundTrip | maxbot/types.py:119-120 | Parsing encoded attachments gives them back, in order. |
| Types.BodyRoundTrip | maxbot/types.py:116-127 | Parsing an encoded body gives the body back. |
| Types.MessageLeavesRoundTrip | maxbot/types.py:173-187 | In an encoded message, timestamp, link, stat and url read back unchanged, and the recipient and body objects are found. |
| Types.SenderRoundTrip | maxbot/types.py:170-171 | The sender of an encoded message reads back as the original sender or its absence. |
| Types.MessageRoundTrip | maxbot/types.py:168-187 | Parsing an encoded well-formed message gives the message back. |
| Types.CallbackRoundTrip | maxbot/types.py:229-241 | Parsing an encoded callback, with its message, gives the callback back. |
| Types.EncodedSubRecords | maxbot/types.py:268-284 | An encoded update holds each sub-record as an object when present and as null otherwise. |
| Types.OptionalMessageFrom | maxbot/types.py:268-272 | A record holding an encoded message, or null, parses to that message, or to None. |
| Types.OptionalCallbackFrom | maxbot/types.py:274-278 | A record holding an encoded callback, or null, parses to that callback, or to None. |
| Types.OptionalUserFrom | maxbot/types.py:280-284 | A record holding an encoded user, or null, parses to that user, or to None. |
| Types.OptionalMessageRoundTrip | maxbot/types.py:268-272 | The message of an encoded update reads back as the original message or its absence. |
| Types.OptionalCallbackRoundTrip | maxbot/types.py:274-278 | The callback of an encoded update reads back as the original callback or its absence. |
| Types.OptionalUserRoundTrip | maxbot/types.py:280-284 | The user of an encoded update reads back as the original user or its absence. |
| Types.UpdateLeavesRoundTrip | maxbot/types.py:286-296 | Kind string, timestamp, chat id, payload and locale of an encoded update read back unchanged. |
| Types.UpdateRoundTrip | maxbot/types.py:260-296 | Parsing an encoded well-formed update gives the update back, with the encoding as its raw record. Every update `from_dict` can produce is therefore reachable, and parsing loses nothing the typed record holds. |
| Json.IntOr | maxbot/types.py:50 | `dict.get(key, d)` read as an int: the default when the key is missing, otherwise the stored int. |
| Json.StrOr | maxbot/types.py:51 | `dict.get(key, d)` read as a string: the default when the key is missing, otherwise the stored string. |
| Json.BoolOr | maxbot/types.py:54 | `dict.get(key, d)` read as a bool: the default when the key is missing, otherwise the stored bool. |
| Json.OptInt | maxbot/types.py:87 | `dict.get(key)` for an optional int is present exactly when an int is stored, and is then that int. |
| Json.OptStr | maxbot/types.py:88 | `dict.get(key)` for an optional string is present exactly when a string is stored, and is then that string. |
| Json.OptValue | maxbot/types.py:104 | `dict.get(key)` for an uninterpreted value is present exactly when a non-null value is stored, and is then that value. |
| Json.ObjectOrEmpty | maxbot/types.py:173-177 | `data.get(key, {})`: the empty object when the key is missing. Otherwise it succeeds exactly when an object is stored, and gives that object's fields. |
| Json.TruthyObject | maxbot/types.py:270-272 | `v = data.get(key); if v:` gives None exactly when the key is missing or falsy. It raises exactly when the value is truthy and not an object; otherwise it gives the object's fields. |
| Strings.LStrip | maxbot/filters.py:102 | `lstrip()` returns a suffix of the input that does not start with whitespace; everything removed is whitespace. |
| Strings.RStrip | maxbot/filters.py:102 | `rstrip()` returns a prefix of the input that does not end with whitespace; everything removed is whitespace. |
| Strings.TakeUntil | maxbot/filters.py:107 | `split(c)[0]` returns a prefix holding no stop character, cut exactly at the first stop character, if there is one. |
| Strings.TakeUntilAppend | maxbot/filters.py:107 | A prefix free of stop characters passes through the cut unchanged. |
| Strings.TakeUntilSpaceTail | maxbot/filters.py:107 | Trailing whitespace does not change the first word. |
| Strings.LStripSpaces | maxbot/filters.py:102 | Stripping leading whitespace before a non-space character leaves exactly the rest. |
| Strings.StripFirstWord | maxbot/filters.py:102-107 | `strip()` and `lstrip()` agree on emptiness, on the first character and on the first word. |
| Strings.Digits | bot/main.py:259-260 | The decimal rendering of a natural number is non-empty and all digits. |
| Strings.IntToString | bot/main.py:259-260 | `str(i)` is non-empty. |
| Strings.DigitsRoundTrip | bot/main.py:259-260 | Reading the digits back gives the number. |
| Strings.DigitsInjective | bot/main.py:259-260 | Different numbers have different digits. |
| Strings.IntToStringInjective | bot/main.py:259-260 | Different integers render as different strings. |
| Strings.IntToStringNoColon | bot/main.py:259-264 | A rendered integer holds no ":". |
| Filters.CommandOf | maxbot/filters.py:102-107 | A command word, when there is one, is non-empty and starts with "/". |
| Filters.UserIdOf | maxbot/filters.py:136-143 | The id `UserFilter` looks at comes from the message sender if there is one, else from the callback user, else from the update user, else it is None. |
| Filters.Conj | maxbot/filters.py:22-24 | `f & g` holds of an update exactly when both f and g hold. |
| Filters.Disj | maxbot/filters.py:26-28 | `f \| g` holds of an update exactly when f or g holds. |
| Filters.Neg | maxbot/filters.py:30-32 | `~f` holds of an update exactly when f does not. |
| Filters.NormalizeCommand | maxbot/filters.py:94 | A normalised command starts with "/". A command that already starts with "/" is kept as is. |
| Filters.NormalizeCommands | maxbot/filters.py:94 | Normalisation keeps the count and the order, entry by entry. |
| Filters.CommandFilter | maxbot/filters.py:90-96 | The command list is empty exactly when the argument is falsy. Otherwise it is the argument's entries, each normalised. |
| Filters.TextFilterCases | maxbot/filters.py:68-84 | The text filter is false without a message text. With texts given, it is membership and `contains` is ignored. Otherwise it is a substring test when `contains` is given, and true for any text when it is not. |
| Filters.EmptyTextFilterRejects | maxbot/filters.py:68-84 | `TextFilter("")` keeps the list `[""]`, which no truthy text is in, so it accepts nothing. |
| Filters.CommandFilterCases | maxbot/filters.py:90-112 | The command filter is false without a command word. With no commands it accepts any command word. Otherwise it is membership of the command word in the normalised commands. |
| Filters.ChatTypeFilterCases | maxbot/filters.py:118-126 | The chat-type filter is false without a message or a chat type; otherwise it is membership in the list. |
| Filters.UserFilterCases | maxbot/filters.py:132-145 | The user filter is false when the chosen id is None or 0; otherwise it is membership in the id list. |
| Filters.CallbackDataFilterCases | maxbot/filters.py:151-167 | The callback-data filter is false without a callback payload. With data given, it is membership; otherwise it is a prefix test when `startswith` is given, and any payload passes when it is not. The data "" is the list `[""]` and accepts nothing. |
| Filters.EmptyCombinators | maxbot/filters.py:35-52 | An empty And is true and an empty Or is false. |
| Filters.NestedCombinators | maxbot/filters.py:22-62 | `(a \| b) & ~c` evaluates as the boolean formula it spells. |
| Filters.Negations | maxbot/filters.py:55-62 | Negating a list of filters gives, entry by entry, the Not of each. |
| Filters.NotAndIsOrNot | maxbot/filters.py:35-62 | De Morgan: Not of an And holds exactly when the Or of the negations holds. |
| Filters.CommandSlashOptional | maxbot/filters.py:90-96 | `CommandFilter("start")` and `CommandFilter("/start")` are the same filter, with the single command "/start". |
| Filters.SlashKeepsNoneIn | maxbot/filters.py:94 | Prefixing "/" adds no whitespace and no "@". |
| Filters.CommandOfLeftStripped | maxbot/filters.py:102-107 | The command word can be read off the text with only its leading whitespace removed. |
| Filters.CommandWordOfName | maxbot/filters.py:107 | The first word of "/name" followed by "@…" or whitespace, cut at "@", is "/name". |
| Filters.CommandOfCommandLine | maxbot/filters.py:98-112 | After leading whitespace, the text "/name", optionally followed by "@bot" and/or arguments, has command word "/name". |
| Filters.CommandWithBotSuffix | maxbot/filters.py:106-107 | "/start@bot arg" has command word "/start". |
| Filters.NonCommandTextRejected | maxbot/filters.py:102-104 | A text not starting with "/" after stripping passes no command filter. |
| Filters.NoMessageLeavesFalse | maxbot/filters.py:72-126 | Without a message, the text, command and chat-type filters are all false. |
| Filters.TextListOverridesContains | maxbot/filters.py:78-79 | With an exact-text list, `contains` makes no difference, and the filter is membership of the text. |
| Filters.CallbackListOverridesPrefix | maxbot/filters.py:161-162 | With a data list, `startswith` makes no difference. |
| Filters.SenderTakesPrecedence | maxbot/filters.py:138-139 | When the message has a sender, the user filter depends only on that sender. |
| Filters.StateAlwaysTrue | maxbot/filters.py:176-178 | The state filter accepts every update. |
| Dispatching.Matches | maxbot/dispatcher.py:29-40 | No contract. `Handler.check`: the kind test (an empty kind list admits every kind), then every filter. Its meaning is stated by `MatchesIsKindAndConjunction` and the `...HandlerMatches` lemmas. |
| Dispatching.MatchesIsKindAndConjunction | maxbot/dispatcher.py:29-40 | A handler matches exactly when its kind list is empty or holds the update's kind, and the And of its filters holds. |
| Dispatching.ArgumentFor | maxbot/dispatcher.py:42-53 | Created and edited messages pass the message, button presses pass the callback, and every other kind passes the update itself. |
| Dispatching.MessageHandlerMatches | maxbot/dispatcher.py:106-121 | A `message(...)` handler matches exactly the created or edited messages that pass its positional filters, its commands when given and its text when given. |
| Dispatching.CallbackQueryHandlerMatches | maxbot/dispatcher.py:147-160 | A `callback_query(...)` handler matches exactly the button presses that pass its positional filters and, when given, its data filter. |
| Dispatching.UpdateHandlerMatchesItsKinds | maxbot/dispatcher.py:209-216 | An `update(...)` handler matches exactly the updates of its kinds, and every update when no kind is given. |
| Dispatching.Dispatched | maxbot/dispatcher.py:224-230 | No contract. The scan of `process_update`: the matching handlers from a position on, stopping after the first one that does not raise. It is characterised by `DispatchedFrom` and `DispatchedExactly`, and is the postcondition of `Dispatcher.ProcessUpdate`. |
| Dispatching.Runs | maxbot/dispatcher.py:224-230 | No contract. The independent reference definition: handler k runs when it matches and every matching handler before it raised. `DispatchedExactly` proves it equal to `Dispatched`. |
| Dispatching.DispatchedFrom | maxbot/dispatcher.py:224-230 | From any position, the handlers run are exactly those that match and are preceded only by matching handlers that raised. They run in increasing order. |
| Dispatching.DispatchedExactly | maxbot/dispatcher.py:224-230 | `process_update` runs exactly the handlers that match and are preceded only by matching handlers that raised, in list order. |
| Dispatching.SkipNonMatching | maxbot/dispatcher.py:224-225 | Handlers that do not match are passed over. |
| Dispatching.FirstMatchWins | maxbot/dispatcher.py:224-228 | When the first matching handler returns normally, it is the only callback run. |
| Dispatching.RaisingThenNextMatch | maxbot/dispatcher.py:224-230 | When exactly two handlers match and the first raises, both run, in order, and nothing else does. |
| Dispatching.NoMatchNoCallback | maxbot/dispatcher.py:224-225 | When no handler matches, no callback runs. |
| Dispatching.RaisingHandlerFallsThrough | maxbot/dispatcher.py:226-230 | A matching handler that raises does not end the scan: the next matching handler runs too. |
| Dispatching.Deliver | maxbot/dispatcher.py:302-308 | No contract. One record of `_poll_updates`: `Malformed` when `Update.from_dict` raises, otherwise the update and the handlers `Dispatched` runs. Stated through `PageDeliveries`, `PollCycle` and `EveryRecordDelivered`. |
| Dispatching.PageDeliveries | maxbot/dispatcher.py:303-308 | The first n records are delivered in array order, each parsed and dispatched on its own. |
| Dispatching.PollCycle | maxbot/dispatcher.py:290-312 | A failed fetch delivers nothing and keeps the cursor. An interrupted cycle keeps the cursor. A completed cycle delivers every record and then moves the cursor to the returned marker, if there is one. |
| Dispatching.EveryRecordDelivered | maxbot/dispatcher.py:303-308 | Every record of a page is handed over, in order, whatever earlier records raised. |
| Dispatching.InterruptedCycleKeepsCursor | maxbot/dispatcher.py:269-312 | A cycle interrupted after j records has delivered j and leaves the cursor, so the page is fetched again. |
| Dispatching.RunFrom | maxbot/dispatcher.py:266-277 | No contract. The `while self.running` loop of `start_polling` over a finite script of cycles: the final cursor and one event per cycle, up to the first cycle that ends the loop. Stated by `RunFromStep`, `RunFromMarker` and `RunCursorIsLatestMarker`, and the postcondition of `Dispatcher.StartPolling`. |
| Dispatching.LatestMarker | maxbot/dispatcher.py:310-312 | No contract. The independent reference for the cursor, read backwards: the marker of the last completed cycle that returned one, or the initial cursor. `RunFromMarker` and `RunCursorIsLatestMarker` prove the run ends there. |
| Dispatching.RunFromStep | maxbot/dispatcher.py:270-271 | A run is its first cycle's events, followed, unless that cycle ends the loop, by the run from the cursor it leaves. |
| Dispatching.RunFromAccumulate | maxbot/dispatcher.py:270-271 | The loop's bookkeeping is kept across one cycle. |
| Dispatching.RunFromMarker | maxbot/dispatcher.py:310-312 | From any cycle, the run's final cursor is the marker of the last cycle that advanced it. |
| Dispatching.RunCursorIsLatestMarker | maxbot/dispatcher.py:266-312 | A polling run ends with the cursor at the marker of the last completed page that returned one. Failed fetches and interrupted pages leave it unchanged. |
| Dispatching.FailuresThenSuccess | maxbot/dispatcher.py:294-312 | After two failed fetches the cursor is still 3; a later page with marker 7 moves it to 7. |
| Dispatching.Dispatcher.constructor | maxbot/dispatcher.py:72-76 | A new dispatcher has no handlers, no bot, no cursor, no hooks, and is not running. |
| Dispatching.Dispatcher.OnMessage | maxbot/dispatcher.py:106-121 | The `message` decorator appends its handler at the end, without de-duplication. |
| Dispatching.Dispatcher.OnCallbackQuery | maxbot/dispatcher.py:147-160 | The `callback_query` decorator appends its handler at the end. |
| Dispatching.Dispatcher.OnUpdate | maxbot/dispatcher.py:209-216 | The `update` decorator appends a handler with no filters at the end. |
| Dispatching.Dispatcher.OnStartup | maxbot/dispatcher.py:174-176 | Registering a startup hook replaces any earlier one. |
| Dispatching.Dispatcher.OnShutdown | maxbot/dispatcher.py:190-192 | Registering a shutdown hook replaces any earlier one. |
| Dispatching.Dispatcher.ProcessUpdate | maxbot/dispatcher.py:220-230 | The handlers whose callbacks run are exactly those the first-match scan reaches, with raising handlers falling through. |
| Dispatching.Dispatcher.PollUpdates | maxbot/dispatcher.py:286-312 | The deliveries, the interrupt flag and the new cursor are those of one poll cycle from the old cursor. |
| Dispatching.Dispatcher.Stop | maxbot/dispatcher.py:314-316 | `stop` clears the running flag. |
| Dispatching.Dispatcher.PollOnce | maxbot/dispatcher.py:270-271 | One pass of the loop sets the cursor and events of one poll cycle. A stop during an uninterrupted pass clears `running`; otherwise `running` is unchanged, including after an interrupted pass. |
| Dispatching.Dispatcher.StartPolling | maxbot/dispatcher.py:248-284 | The bot is stored. Without the bot's identity nothing else happens. Otherwise the startup hook runs, then the cycles of the run, then the shutdown hook once. The loop exits with `running` false and the run's final cursor. |
| GigaChat.SliceFrom | llm/gigachat.py:77-80 | Python's `h[start:]`, for any int start, returns a suffix. A negative start keeps at most that many entries from the end. A start within the list drops that many, and a start past the end gives the empty list. |
| GigaChat.Truncated | llm/gigachat.py:73-80 | No contract. The truncation of `add_to_history`: an over-long list keeps a leading system entry plus `h[-(max_history-1):]`, or else `h[-max_history:]`. Stated by `TruncatedLength`, `TruncatedKeepsRecent`, `TruncatedKeepsLast`, `TruncatedKeepsSystemHead` and `LimitOneDuplicatesHead`. |
| GigaChat.Appended | llm/gigachat.py:70-80 | No contract. `add_to_history` on one list: append the entry, then truncate. Stated by `AppendedWithinLimit` and `AppendedEndsWith`. |
| GigaChat.TruncatedLength | llm/gigachat.py:73-80 | With a limit of at least two, a truncated list is as long as the list, capped at the limit. |
| GigaChat.AppendedWithinLimit | llm/gigachat.py:70-80 | With a limit of at least two, appending keeps a history within the limit within it. Below the limit, appending is a plain append. |
| GigaChat.TruncatedKeepsRecent | llm/gigachat.py:74-80 | A too-long list with a system head keeps the head and the last limit-1 entries; any other too-long list keeps its last limit entries. |
| GigaChat.TruncatedKeepsLast | llm/gigachat.py:73-80 | With a positive limit, the newest entry survives truncation. |
| GigaChat.AppendedEndsWith | llm/gigachat.py:70-80 | With a positive limit, the appended entry is the last element of the stored list. |
| GigaChat.TruncatedKeepsSystemHead | llm/gigachat.py:75-78 | A leading system entry is never dropped. |
| GigaChat.LimitOneDuplicatesHead | llm/gigachat.py:77-78 | With a limit of one and a system head, truncation duplicates the head instead of shortening the list. |
| GigaChat.Reply | llm/gigachat.py:139-152 | `chat` returns a reply exactly when the API answered, and the reply is the answer's content. |
| GigaChat.SessionExchange | llm/gigachat.py:112-148 | No contract. The session branch of `chat`: the system prompt for an empty history, then the user message, then the answer if any, each added through `add_to_history`. It gives what is sent and what is stored. Stated by `ExchangeOrder`, `ExchangeSystemPrompt` and `ExchangeWithinLimit`. |
| GigaChat.ExchangeOrder | llm/gigachat.py:121-148 | The user message is the last message sent. The stored history ends with the answer when there is one, and otherwise with the user message, which stays after a failed call. |
| GigaChat.ExchangeSystemPrompt | llm/gigachat.py:115-118 | A given prompt opens an empty session and stays at its head. A session with history gets no second prompt. |
| GigaChat.ExchangeWithinLimit | llm/gigachat.py:70-144 | With a limit of at least two, a session within the limit stays within it after a whole exchange. |
| GigaChat.OneOffMessages | llm/gigachat.py:129-133 | Without a session, the messages sent are the system prompt when given, then the user message. |
| GigaChat.HistoryOf | llm/gigachat.py:57-59 | No contract. The history `get_session_history` returns: the stored list, or the empty list for an unknown id. It is the postcondition of `GigaChatClient.GetSessionHistory`. |
| GigaChat.SessionsAfterChat | llm/gigachat.py:110-152 | No contract. The store after `chat`: only a truthy session id stores its exchange. Stated by `ChatTouchesOneSession`, and the postcondition of `GigaChatClient.Chat`. |
| GigaChat.OrderAfterChat | llm/gigachat.py:112-128 | No contract. The insertion order after `chat`: a new truthy session id goes last, and nothing else moves. It is the postcondition of `GigaChatClient.Chat`, and `Valid` ties it to the store's keys. |
| GigaChat.MessagesSent | llm/gigachat.py:110-133 | No contract. The messages `chat` sends: the session exchange's list for a truthy session id, otherwise `OneOffMessages`. It is the postcondition of `GigaChatClient.Chat`. |
| GigaChat.ChatTouchesOneSession | llm/gigachat.py:112-152 | `chat` changes only its own session, and changes nothing without a session id. |
| GigaChat.DistinctAppend | llm/gigachat.py:57-58 | Inserting a new key keeps the keys distinct. |
| GigaChat.Without | llm/gigachat.py:89-90 | Deleting a key leaves exactly the other keys. |
| GigaChat.WithoutDistinct | llm/gigachat.py:89-90 | Deleting a key keeps the keys distinct. |
| GigaChat.WithoutAbsent | llm/gigachat.py:89-90 | Deleting an absent key changes nothing. |
| GigaChat.DistinctCardinality | llm/gigachat.py:174-180 | With distinct keys, there are as many sessions as listed ids. |
| GigaChat.GigaChatClient.constructor | llm/gigachat.py:17-43 | A new client has the given limit and no sessions. |
| GigaChat.GigaChatClient.GetSessionHistory | llm/gigachat.py:57-59 | Looking up an unknown id stores an empty history and lists the id last. A known id returns its history and changes nothing. |
| GigaChat.GigaChatClient.AddToHistory | llm/gigachat.py:70-80 | The session's history becomes the old history, or the empty one, with the entry appended and then truncated. Only an unknown id is added to the ids. |
| GigaChat.GigaChatClient.TruncateHistory | llm/gigachat.py:73-80 | The truncation step computes the truncated list. |
| GigaChat.GigaChatClient.StoreHistory | llm/gigachat.py:77-80 | Assigning to a stored id replaces that history only. |
| GigaChat.GigaChatClient.ClearSession | llm/gigachat.py:89-91 | Clearing deletes the id when present and is otherwise a no-op, so it is idempotent. Other sessions are untouched. |
| GigaChat.GigaChatClient.GetSessionCount | llm/gigachat.py:174-176 | The count is the number of ids `get_all_session_ids` lists. |
| GigaChat.GigaChatClient.GetAllSessionIds | llm/gigachat.py:178-180 | Every stored id is listed once, in insertion order. |
| GigaChat.GigaChatClient.ChatInSession | llm/gigachat.py:112-148 | The session branch sends and stores exactly the messages of one exchange from the old history. |
| GigaChat.GigaChatClient.AddSystemPrompt | llm/gigachat.py:115-118 | An empty history gets the prompt, when one is given; any other history is kept. |
| GigaChat.GigaChatClient.SendAndRecord | llm/gigachat.py:120-144 | The user message is stored before the call, and the answer, if any, after it. |
| GigaChat.GigaChatClient.RecordAnswer | llm/gigachat.py:142-144 | The answer, if any, is appended to the session after the call. |
| GigaChat.GigaChatClient.Chat | llm/gigachat.py:110-152 | `chat` returns the reply. The messages sent and the new store and ids are those the exchange defines: a truthy session id records it, and no session id stores nothing. |
| GigaChat.GigaChatClient.ChatAsync | llm/gigachat.py:154-172 | `chat_async` behaves exactly as `chat`. |
| BotMain.IdText | bot/main.py:259-260 | A falsy (missing or 0) id renders as ""; any other id renders as its decimal string. |
| BotMain.SessionId | bot/main.py:246-267 | No contract. `_get_session_id`: `"<chat_id>:<user_id>"` in chat, group and supergroup chats, the chat id alone otherwise, with falsy ids rendered as "". Stated by `GroupSessionIdsSeparateUsers`, `DialogSessionIsPerChat`, `GroupAndDialogSessionsDiffer`, `GroupWithoutSender` and `DialogWithoutChatId`. |
| BotMain.SameKeyMeans | bot/main.py:259-260 | Equal renderings mean both ids are falsy, or both are the same id. |
| BotMain.ColonSplit | bot/main.py:264 | Joining with ":" can be undone when the left parts hold no ":". |
| BotMain.IdTextNoColon | bot/main.py:259-260 | A rendered id holds no ":". |
| BotMain.GroupSessionIdsSeparateUsers | bot/main.py:262-264 | In group-like chats, equal session ids mean the same chat and the same user. |
| BotMain.DialogSessionIsPerChat | bot/main.py:266-267 | In any other chat, two messages share a session exactly when they share the chat, whoever sends them. |
| BotMain.GroupAndDialogSessionsDiffer | bot/main.py:262-267 | A group-like chat's session id never equals the session id of another kind of chat. |
| BotMain.GroupWithoutSender | bot/main.py:259-264 | A group message in chat 10 without a sender has session "10:". |
| BotMain.DialogWithoutChatId | bot/main.py:259-267 | A dialog message without a chat id has session "". |
| BotMain.BotHandlers | bot/main.py:67-244 | The bot registers nine handlers. |
| BotMain.BotHandlersShape | bot/main.py:67-244 | In order, the registered handlers are the commands "/start"+"/help", "/clear" and "/info", then the text catch-all, the button handler, and one filterless handler per lifecycle kind. |
| BotMain.OneFilter | maxbot/dispatcher.py:29-40 | A one-filter handler of the update's kind matches exactly when its filter holds. |
| BotMain.MessageMatches | bot/main.py:67-129 | For a created or edited message: each command handler matches exactly its command words, the text handler matches any text, and no event handler matches. |
| BotMain.ClearMatches | bot/main.py:89-129 | "/clear" matches `command_clear` and the text catch-all, and nothing else. |
| BotMain.ClearReachesCommandClear | bot/main.py:89-129 | "/clear" reaches `command_clear` and not the LLM. Only when `command_clear` raises does the text handler run as well. |
| BotMain.StartReachesCommandStart | bot/main.py:67-87 | "/start" and "/help" reach `command_start` only. |
| BotMain.InfoReachesCommandInfo | bot/main.py:105-127 | "/info" reaches `command_info` only. |
| BotMain.OtherTextReachesLlm | bot/main.py:129-175 | Any other text, including an unknown command, reaches the LLM handler only. A message without text reaches no handler. |
| BotMain.KindHandlers | bot/main.py:177-244 | A button press reaches `handle_callback`, and each lifecycle kind reaches its own handler, whatever the update holds. |
| BotMain.UnhandledKinds | bot/main.py:67-244 | Updates of any other kind, such as a removed message, run no handler. |
| BotMain.MaxBotWithGigaChat.constructor | bot/main.py:34-50 | The bot's dispatcher holds exactly the bot's handler list and both hooks. Its client has limit 10 and no sessions. |
| BotMain.MaxBotWithGigaChat.RegisterHandlers | bot/main.py:54-244 | Registration sets both hooks and appends the nine handlers in order. The dispatcher's other state is untouched. |
| BotMain.MaxBotWithGigaChat.RegisterMessageHandlers | bot/main.py:67-129 | The three command handlers and the text handler are appended in order. |
| BotMain.MaxBotWithGigaChat.RegisterEventHandlers | bot/main.py:177-244 | The button handler and the four lifecycle handlers are appended in order. |
| BotMain.MaxBotWithGigaChat.CommandClear | bot/main.py:90-103 | A message without a sender changes nothing. Otherwise its session is deleted from the store and from the insertion order, and the cleared reply is returned. |
| BotMain.MaxBotWithGigaChat.CommandInfo | bot/main.py:106-127 | A message without a sender changes nothing. Otherwise its session is looked up, and created when new: a new id is added at the end of the insertion order. The report holds the session id, its length and the number of sessions. |
| BotMain.MaxBotWithGigaChat.HandleTextMessage | bot/main.py:130-175 | A message without a sender or a text changes nothing. Otherwise one exchange is recorded under its session with the bot's system prompt, and a new session id is added at the end of the insertion order. The reply is the answer, or the apology when there is none. |
| BotMain.DialogWithoutChatIdKeepsNoHistory | bot/main.py:259-267 | A dialog without a chat id has the falsy session id "", so the LLM handler keeps no history for it. |

`Message.text`, `message_id`, `chat_id` and `from_user` are modelled as the plain functions `Types.MessageText`, `MessageId`, `MessageChatId` and `FromUser`. They are field projections. `Filters.Eval` is `Filter.check` for every filter class, and `Filters.TextFilter`, `ChatTypeFilter`, `UserFilter` and `CallbackDataFilter` are the constructors and the `F` factory; the `...Cases` lemmas above state their meaning.

## Left out

- JSON floats cannot be represented: the `Json` value has integers only. Every numeric field the parsers read is declared `int` (for example `timestamp`, types.py:158). A float sent in its place would read as the default.
- Fields stored with the wrong JSON type are read as absent or as the default. For example, `"user_id": "x"` reads as 0 and `"chat_id": null` as None. Python would keep the foreign value, and `data.get("user_id", 0)` on a stored null gives None, not 0. The typed fields cannot hold such values.
- A non-string `update_type` is read as "", giving `Other("")`; Python would keep the foreign value as the kind.
- `Chat.from_dict`, `BotInfo.from_dict` and `Message.chat` are left out: the dispatch path does not use them.
- `Update.raw_data`, `link`, `stat` and `Attachment.payload` are kept as uninterpreted JSON values.
- The HTTP transport (`get_me`, `get_updates`) is reduced to its results, given as inputs. The request parameters `limit`, `timeout` and `allowed_updates` are not modelled.
- Logging and `time.sleep(5)` are left out: they have no effect on state.
- `async`/`await` is modelled as sequential steps; there is no concurrency.
- A plain callable given as a filter is left out; only `Filter` objects are modelled.
- An exception raised inside a filter's `check` is not modelled. It would escape `process_update`, whose `try` covers only `handle` (dispatcher.py:225-230). The per-record `except Exception` in `_poll_updates` (dispatcher.py:303-308) would then catch it, so only that record's dispatch would stop, and polling would go on.
- An exception raised by `get_updates` itself is not modelled; a failed fetch is modelled as a cycle with no page. Such an exception would reach the generic `except Exception` in `start_polling` (dispatcher.py:274-275) and end the loop like an interrupt.
- `Dispatching.Dispatcher.StartPolling`: it covers only runs that end, with a stop or an interrupt in the last cycle of a finite script. A run that never stops is not modelled.
- `Dispatching.Dispatcher.PollOnce`: a `stop()` requested during a cycle is applied after that cycle's records. The loop test, which is the only place the flag is read, sees the same thing.
- Message sending, typing indicators, button answers and the welcome texts are left out: they are handler side effects with no effect on the modelled state. Handlers are identified by their function names.
- `create_bot` and its environment variables, the bot token and the GigaChat credentials, scope and model are left out.
- `UserFilter` with a single int argument (rather than a list) is not modelled; a one-element list has the same behaviour.
- The GigaChat API call is given as an `ApiOutcome` input. How the response's first choice is chosen, and how `Messages` objects are built, are not modelled.
