# AI group chat: a Dafny model of its turn loop, retry wrapper and bot form

The application is a browser group chat. One human user talks with several
AI bot personas. A message the user sends is appended to the log. Then every
bot, in a random order, gets a chance to reply: the bot is marked as typing,
waits a moment, and sends the recent conversation to a generation backend.
The backend call is wrapped in a retry loop with exponential backoff. A
non-empty reply is appended to the log and to the local history that the
next bot sees. A reset moves a session counter (the epoch) on by one and so
stops every running turn at its next check. A side panel adds bots,
checking the name and persona prompt after trimming, and removes bots.

This project models that core in Dafny and proves what it does.

- `types.dfy` (module `Types`): participants, messages, and the
  `Array.prototype.find` / `filter` searches over the roster.
- `js_string.dfy` (module `JsString`): ECMAScript `trim`, `includes`, and
  `String(n)` for an integer below 10^21 in magnitude.
- `retry.dfy` (module `Retry`): `generateWithRetry`. This is a recursive
  function over an oracle that gives the backend's behaviour on each of the at
  most four attempts. It returns the settled outcome and the backoff delays
  waited.
- `gemini_service.dfy` (module `GeminiService`): `generateBotReply`.
  - The last-20 window.
  - The transcript, accumulated by a loop and proved equal to a recursive
    definition.
  - The prompt template's two slots (persona and transcript).
  - The user guard.
- `turn_spec.dfy` (module `TurnSpec`): the closed form `TurnOutcome` of one
  turn of `triggerBotReplies`, and the properties proved about it:
  - replies follow the shuffled order, one at most per bot;
  - the local history each call is given;
  - the typing map is cleared;
  - the turn stops at the first reset;
  - a failure does not stop the turn.
- `app.dfy` (module `App`): the application state as class `ChatApp`.
  - Its handlers `handleSendMessage`, `triggerBotReplies` (a `while` loop
    over the shuffled bots), `resetChat`, `addBot` and `removeBot`.
  - The loop is proved to end in exactly the state `TurnOutcome` gives.
- `bot_manager.dfy` (module `BotManager`): the creation form (class `BotForm`)
  and `handleCreateBot`.

Nondeterminism is handled by oracle parameters:

- The shuffle is any permutation of the roster's bots (`IsShuffleOf`).
- The backend's behaviour per attempt is an `Attempts` value for each
  position of the order.
- `crypto.randomUUID()` and `Date.now()` are given ids and timestamps.
- A reset by the user in the middle of a turn is a set of checkpoints
  (`Thinking(i)`: during bot `i`'s thinking delay; `Generating(i)`: while its
  backend call is pending). At each such checkpoint `ResetChat(true)` is
  called.
- The random number `Math.random()` returns for the colour is a real
  number `pick` in [0, 1); the colour index is `Floor(pick * 7)`.

Two behaviours of the code that a reader might not expect:

- A whitespace-only reply is not treated as an empty response. The
  empty-response check `!text` tests the untrimmed text, so a non-empty text
  of white space passes it. The wrapper then returns the trimmed text, `""`,
  and does not throw, and the caller appends nothing for `""`
  (`Retry.WhiteSpaceReplyReturnsEmpty`, `App.WhiteSpaceReplyAppendsNothing`).
- The create button is enabled once both raw fields are non-empty
  (`!newBotName || !newBotPrompt`). The handler checks the trimmed fields. So a
  whitespace-only name enables the button, but the handler refuses it
  (`BotManager.EnabledButRefused`).

## Model

| member | source | states |
|---|---|---|
| `Types.FirstIndex` | ai-group-chat/App.tsx:74 | the index `find` stops at: no earlier element matches; the element there matches, or it is the length when none does |
| `Types.Filter` | ai-group-chat/App.tsx:92 | the result holds exactly the elements of the input that pass the test, and is no longer than the input |
| `JsString.Trim` | ai-group-chat/services/geminiService.ts:29 | `String.prototype.trim`: drops the ECMAScript white-space and line-terminator characters at both ends and nothing else (its meaning is stated by `TrimStartSpec`, `TrimEndSpec`, `TrimHasNoOuterSpace`, `TrimEmptyIff` and `TrimIdempotent`) |
| `JsString.TrimStartSpec` | ai-group-chat/services/geminiService.ts:29 | dropping leading white space keeps a suffix, drops only white-space characters and stops at the first other character |
| `JsString.TrimEndSpec` | ai-group-chat/services/geminiService.ts:29 | dropping trailing white space keeps a prefix, drops only white-space characters and stops at the last other character |
| `JsString.TrimHasNoOuterSpace` | ai-group-chat/services/geminiService.ts:29 | a trimmed string has no white space at either end |
| `JsString.TrimEmptyIff` | ai-group-chat/App.tsx:72 | `trim()` is empty if and only if the input is all white space |
| `JsString.TrimNoOuterSpace` | ai-group-chat/components/BotManager.tsx:41 | a string with no white space at either end is its own trim |
| `JsString.TrimIdempotent` | ai-group-chat/components/BotManager.tsx:41 | trimming twice gives the same as trimming once |
| `JsString.Contains` | ai-group-chat/services/geminiService.ts:36 | `includes`: `part` occurs in the string at some offset; `OmitsFirstChar` and `NumberOmits` state when it cannot |
| `JsString.NumberToString` | ai-group-chat/services/geminiService.ts:36 | `String(n)` for an integer below 10^21 in magnitude: an optional minus sign and the decimal digits, so every character is a digit or `-` |
| `JsString.OmitsFirstChar` | ai-group-chat/services/geminiService.ts:36 | `includes(part)` is false when no character of the string is the first character of `part` |
| `JsString.NumberOmits` | ai-group-chat/services/geminiService.ts:36 | the decimal form of a number contains no string that starts with a character other than a digit or a minus sign |
| `Retry.Truthy` | ai-group-chat/services/geminiService.ts:34 | JavaScript truthiness as `\|\|` tests it: undefined, 0 and the empty string are falsy, every other number and string is truthy |
| `Retry.JsToString` | ai-group-chat/services/geminiService.ts:36 | `String(status)`: "undefined", the decimal form of a number, or the string itself |
| `Retry.StatusOf` | ai-group-chat/services/geminiService.ts:34 | `error.status`, or `error.code` when the status is falsy (undefined, 0 or the empty string) |
| `Retry.IsRetryable` | ai-group-chat/services/geminiService.ts:36 | the retry condition without the budget: status strictly 429, 500 or 503, or `String(status)` containing `RESOURCE_EXHAUSTED`; `RetryableIff` restates it without `String` |
| `Retry.BackoffDelay` | ai-group-chat/services/geminiService.ts:37-38 | the wait before retry number `retries`: `2000 * 2^retries` ms |
| `Retry.AttemptOutcome` | ai-group-chat/services/geminiService.ts:25-29 | one attempt of the `try` block: a missing or empty text throws the empty-response error, a text is returned trimmed, a rejection is the error caught |
| `Retry.GenerateWithRetry` | ai-group-chat/services/geminiService.ts:14-43 | the wrapper waits at most once per retry it has left |
| `Retry.GenerateWithRetrySettles` | ai-group-chat/services/geminiService.ts:14-43 | the wrapper settles with the outcome of its last attempt; every earlier attempt failed retryably; the last one did not, or the budget of three retries was spent |
| `Retry.BackoffDelays` | ai-group-chat/services/geminiService.ts:37-39 | the k-th wait is `2000 * 2^(retries + k)` ms |
| `Retry.RetryableIff` | ai-group-chat/services/geminiService.ts:34-36 | a failure is retryable exactly when its status (`status`, or `code` when `status` is falsy) is strictly 429, 500 or 503, or is a string containing `RESOURCE_EXHAUSTED` |
| `Retry.BareErrorNotRetryable` | ai-group-chat/services/geminiService.ts:27 | an error with neither `status` nor `code` is never retried |
| `Retry.BackoffSchedule` | ai-group-chat/services/geminiService.ts:8-9 | the waits of one call are a prefix of 2000, 4000, 8000 ms and add up to at most 14000 ms |
| `Retry.AlwaysRetryableFailsAfterThreeRetries` | ai-group-chat/services/geminiService.ts:36-41 | a backend that always fails retryably makes the wrapper rethrow the fourth attempt's error after exactly the waits 2000, 4000, 8000 |
| `Retry.TwoFailuresThenReply` | ai-group-chat/services/geminiService.ts:25-39 | two retryable failures and then a text give the trimmed text after exactly 2000 and 4000 ms |
| `Retry.EmptyResponseFailsAtOnce` | ai-group-chat/services/geminiService.ts:25-27 | a missing or empty text throws the empty-response error at once, with no wait |
| `Retry.NonRetryableRethrown` | ai-group-chat/services/geminiService.ts:41 | a failure that is not retryable is rethrown unchanged, with no wait |
| `Retry.WhiteSpaceReplyReturnsEmpty` | ai-group-chat/services/geminiService.ts:26-29 | a non-empty text of white space only is returned as `""`, with no throw |
| `GeminiService.RecentMessages` | ai-group-chat/services/geminiService.ts:60 | `slice(-20)`: the last min(20, n) messages in log order, as `RecentMessagesWindow` states |
| `GeminiService.SenderName` | ai-group-chat/services/geminiService.ts:64-65 | the roster name of the first participant with the sender's id, or "Unknown" (`SenderNameFirstMatch`, `SenderNameMissing`) |
| `GeminiService.Line` | ai-group-chat/services/geminiService.ts:66 | one transcript line: sender name, `": "`, the content and a newline |
| `GeminiService.Transcript` | ai-group-chat/services/geminiService.ts:62-67 | the lines of the messages concatenated oldest first (`TranscriptAppend`, `TranscriptOldestFirst`; `BuildConversationHistory` is proved equal to it) |
| `GeminiService.RecentMessagesWindow` | ai-group-chat/services/geminiService.ts:60 | the window is the last min(20, n) messages, in log order |
| `GeminiService.SenderNameFirstMatch` | ai-group-chat/services/geminiService.ts:64-65 | the name shown is that of the first participant with the sender's id |
| `GeminiService.SenderNameMissing` | ai-group-chat/services/geminiService.ts:65 | a sender no participant has is shown as "Unknown" |
| `GeminiService.TranscriptAppend` | ai-group-chat/services/geminiService.ts:62-67 | the transcript of two consecutive stretches of messages is the two transcripts joined |
| `GeminiService.TranscriptOldestFirst` | ai-group-chat/services/geminiService.ts:63-66 | the oldest message gives the first line, `name: content` and a newline |
| `GeminiService.Instruction` | ai-group-chat/services/geminiService.ts:73 | the persona is the bot's instruction when it is set and non-empty; otherwise it is "You are a helpful assistant." |
| `GeminiService.Prompt` | ai-group-chat/services/geminiService.ts:70-84 | the template with the bot's name, persona text and a transcript in their slots, as `PromptSlots` locates them |
| `GeminiService.BotPrompt` | ai-group-chat/services/geminiService.ts:57-84 | the prompt for a bot built from the transcript of the last 20 messages of the log it is given |
| `GeminiService.PromptSlots` | ai-group-chat/services/geminiService.ts:70-84 | the prompt holds the persona text and the whole transcript, each at an offset fixed by the template and the bot's name |
| `GeminiService.BuildConversationHistory` | ai-group-chat/services/geminiService.ts:60-67 | the `forEach` accumulation yields the transcript of the last 20 messages |
| `GeminiService.GenerateBotReply` | ai-group-chat/services/geminiService.ts:48-94 | for a user participant, it throws without building a prompt or calling the backend; otherwise it sends the prompt built from the last 20 messages and settles exactly as the wrapper does |
| `TurnSpec.Bots` | ai-group-chat/App.tsx:92 | the roster without the user, in roster order; a turn shuffles exactly these (`IsShuffleOf`) |
| `TurnSpec.TurnOutcome` | ai-group-chat/App.tsx:91-160 | the state, visit count and call histories of one turn against its first reset: a stale session changes nothing; with no reset every non-empty reply is appended in order and every typing entry cleared; a reset at position k stops the turn with epoch + 1, an empty log and typing map, k + 1 bots visited (`TriggerBotReplies` is proved to end in it; `TurnStopsAtReset`, `TurnWithoutReset`, `TurnClearsTyping`, `RepliesFollowOrder`, `TurnHistoryAt` are about it) |
| `TurnSpec.IsShuffleOf` | ai-group-chat/App.tsx:92-95 | the order is a permutation of the roster's bots: the same bots, each as often as in the roster, which is all a comparator-based sort of a copy can promise |
| `TurnSpec.Appends` | ai-group-chat/App.tsx:133 | `if (responseText)`: the call resolved, and with a non-empty text |
| `TurnSpec.ReplyMessage` | ai-group-chat/App.tsx:134-139 | `newBotMsg`: the fresh id, the bot's id as sender, the returned text, the fresh timestamp, no error flag |
| `TurnSpec.StepReply` | ai-group-chat/App.tsx:133-145 | what one bot's step adds to both the log and the local history: its message when the step appends, nothing otherwise |
| `TurnSpec.Replies` | ai-group-chat/App.tsx:142-145 | the messages the first n positions add, in the order of the shuffle; the log and the local history of a turn both grow by it (`RepliesPrefix`, `RepliesFollowOrder`) |
| `TurnSpec.TurnHistories` | ai-group-chat/App.tsx:121 | the history each of the first m calls is given: the turn's history followed by the replies before that position (`TurnHistoryAt`) |
| `TurnSpec.StepEffect` | ai-group-chat/App.tsx:104-157 | one bot's step: a reset while thinking stops the loop before the call; a reset during the call leaves the reset's empty state whatever the backend returned; with neither, the reply is appended to the log and the local history and the bot's typing entry is removed |
| `TurnSpec.ShuffleHasOnlyBots` | ai-group-chat/App.tsx:92-95 | a shuffle of the roster's bots has as many entries as there are bots, and each entry is a non-user participant of the roster |
| `TurnSpec.FirstReset` | ai-group-chat/App.tsx:102-131 | the position of the first checkpoint at which the session moves on: no reset before it; one at it, unless it is the end of the order |
| `TurnSpec.Ids` | ai-group-chat/App.tsx:104 | every visited bot's id is in the set of ids the turn marked |
| `TurnSpec.IdsExactly` | ai-group-chat/App.tsx:152-156 | the ids a turn removes from the typing map are exactly those of the bots it visited, and no others |
| `TurnSpec.Advance` | ai-group-chat/App.tsx:100-158 | one bot's step keeps the loop on the closed form: either the first i+1 positions ran with the session current, or the first reset fired at position i |
| `TurnSpec.TurnEnds` | ai-group-chat/App.tsx:100-159 | each way out of the loop (stale at the start, the order run out, a session check failed) ends in the turn's closed form |
| `TurnSpec.RepliesPrefix` | ai-group-chat/App.tsx:145 | the local history only grows: earlier replies are a prefix of later ones |
| `TurnSpec.RepliesFollowOrder` | ai-group-chat/App.tsx:100-145 | bot messages are appended in the order of the shuffle, at most one per position, and exactly for non-empty replies |
| `TurnSpec.TurnHistoryAt` | ai-group-chat/App.tsx:121 | the call at position i is given the turn's history followed by the replies of positions before i |
| `TurnSpec.TurnHistoriesLength` | ai-group-chat/App.tsx:121 | one history is recorded per call |
| `TurnSpec.TurnClearsTyping` | ai-group-chat/App.tsx:104-157 | after a turn, no bot it marked as typing has a typing entry, and the map holds no key it did not hold before |
| `TurnSpec.TurnStopsAtReset` | ai-group-chat/App.tsx:102-131 | a reset at position k leaves the epoch one higher and the log and typing map empty, even when k's reply was already generated; nothing after k is visited or called |
| `TurnSpec.TurnWithoutReset` | ai-group-chat/App.tsx:147-148 | without resets every bot is visited and called and the log grows by exactly the non-empty replies, whatever fails |
| `TurnSpec.FailureIsIsolated` | ai-group-chat/App.tsx:120-148 | of two bots where one fails and the other replies, in either order, exactly the replying bot's message is appended |
| `App.WhiteSpaceReplyAppendsNothing` | ai-group-chat/App.tsx:133 | a backend reply of white space only makes the bot's step append nothing |
| `App.ExhaustedRetriesAppendNothing` | ai-group-chat/App.tsx:147-148 | a backend that always fails retryably makes the bot's step append nothing |
| `App.RemovedBotNotVisited` | ai-group-chat/App.tsx:173-175 | no later turn visits a bot with a removed id |
| `App.RemoveAbsentIdKeepsRoster` | ai-group-chat/App.tsx:174 | removing an id no participant has leaves the roster unchanged |
| `App.InitialRoster` | ai-group-chat/App.tsx:8-48 | the initial roster (`App.InitialParticipants`) has five participants, the user `user-1` first, and the four bots after it are exactly the bots the first turn shuffles |
| `App.UserIndex` | ai-group-chat/App.tsx:74 | `participants.find(p => p.isUser)` as the index of the first user, or the roster length when there is none |
| `App.Settle` | ai-group-chat/App.tsx:121 | how the call of `generateBotReply` at one position settles: the retry wrapper's outcome on that position's attempts, with the id and timestamp its message would get |
| `App.SettleAll` | ai-group-chat/App.tsx:100-121 | one step per oracle, and the step at each position is that oracle's settled call (`Settle`) |
| `App.ChatApp.constructor` | ai-group-chat/App.tsx:51-60 | the chat starts with the five initial participants, an empty log, empty input and typing map, and epoch 0 |
| `App.ChatApp.SetInputText` | ai-group-chat/App.tsx:288 | the input box's text is replaced; nothing else changes |
| `App.ChatApp.AddBot` | ai-group-chat/App.tsx:169-171 | the bot is appended to the roster; nothing else changes |
| `App.ChatApp.RemoveBot` | ai-group-chat/App.tsx:173-175 | exactly the participants with that id are removed, the rest keep their order; nothing else changes |
| `App.ChatApp.ResetChat` | ai-group-chat/App.tsx:177-183 | a confirmed reset raises the epoch by exactly one and empties the log and the typing map; a cancelled one changes nothing |
| `App.ChatApp.BotStep` | ai-group-chat/App.tsx:101-158 | one bot's step, from marking it as typing to the `finally` block: the three session checks, the call, the append of a non-empty reply, and the typing entry cleared on every path |
| `App.ChatApp.TriggerBotReplies` | ai-group-chat/App.tsx:91-160 | the turn ends in exactly the state, visit count and call histories `TurnOutcome` gives for the shuffle, the backend oracles and the resets, and leaves the roster and input alone |
| `App.ChatApp.HandleSendMessage` | ai-group-chat/App.tsx:71-89 | blank input, or a roster with no user, changes nothing; otherwise the user's trimmed message is appended once, the input is cleared, and a turn runs over the log with that message under the current epoch |
| `BotManager.ColorIndex` | ai-group-chat/components/BotManager.tsx:45 | `Math.floor(pick * 7)` is an index into the seven colours |
| `BotManager.NewBot` | ai-group-chat/components/BotManager.tsx:37-46 | `None` iff a trimmed field is empty (`NewBotRefusedIff`), otherwise the participant of lines 39-46: fresh id, trimmed name, selected avatar, not the user, trimmed prompt as instruction, colour `COLORS[Floor(pick * 7)]` (`NewBotShape`) |
| `BotManager.CreateEnabled` | ai-group-chat/components/BotManager.tsx:152 | the button's test on the raw fields: both are non-empty, before trimming |
| `BotManager.NewBotRefusedIff` | ai-group-chat/components/BotManager.tsx:37 | creation is refused if and only if the name or the prompt is all white space |
| `BotManager.EnabledButRefused` | ai-group-chat/components/BotManager.tsx:152 | a whitespace-only name enables the button, and creation is still refused |
| `BotManager.NewBotShape` | ai-group-chat/components/BotManager.tsx:39-46 | a created bot is not the user and has the fresh id, the selected avatar and one of the seven colours; its name and persona are the trimmed inputs, non-empty and already trimmed |
| `BotManager.NewBotPersona` | ai-group-chat/components/BotManager.tsx:44 | a created bot is prompted with its trimmed prompt, never the default instruction |
| `BotManager.AddedBotJoinsTurns` | ai-group-chat/App.tsx:170 | an added bot becomes the last of the bots every later turn shuffles |
| `BotManager.BotForm.constructor` | ai-group-chat/components/BotManager.tsx:31-34 | the form starts closed, with empty fields and the first preset avatar |
| `BotManager.BotForm.HandleCreateBot` | ai-group-chat/components/BotManager.tsx:36-52 | a refused creation changes nothing; otherwise the new bot is added to the roster once, and the fields are reset with the form closed |

## Left out

- The backend SDK call and its client (`ai.models.generateContent`, model
  name, temperature, thinking budget). It is a foreign library. Each attempt's
  result is an oracle value instead.
- Time. The backoff waits are reported as values, not waited. The thinking
  delay `Math.random() * 1500 + 1000` is floating point and only marks the
  `Thinking` checkpoint.
- Randomness.
  - The shuffle's comparator is replaced by "any permutation of the bots";
    uniformity cannot be stated.
  - Which colour `Math.random()` picks is the `pick` parameter, on the reals
    rather than IEEE doubles.
- Fresh values. Ids from `crypto.randomUUID()` and timestamps from
  `Date.now()` are parameters. Their uniqueness is not modelled.
- `window.confirm` is the `confirmed` parameter of `ResetChat`.
- `console.warn` / `console.error` logging.
- Error message texts beyond the two the code defines.
- React state batching.
  - Every state update is applied at once.
  - `handleSendMessage` passes `[...messages, newUserMsg]` with the `messages`
    of the render it runs in, and that equals the new log. Stale closures
    across renders are not modelled.
- Concurrency within a session.
  - Two turns of the same epoch overlapping are not modelled; rapid
    consecutive sends can produce them, and one turn's `finally` can then
    clear another's typing entry.
  - Adding or removing bots while a turn runs is not modelled either.
- Interleavings across sessions.
  - The reset oracle is a set of checkpoints, so at most one reset fires at
    each. Two confirmed resets during one pending `generateBotReply` call
    raise the epoch by two. `TurnStopsAtReset`'s "one higher" holds only for
    a single reset.
  - A reset followed by a send while the old turn is still awaiting starts
    a turn of the new epoch. The old turn's stale exit (App.tsx:112-116,
    125-129) can then delete the new turn's typing entry for the same bot.
    The log the old turn leaves then holds the new user message, so it is not
    empty. The model runs one turn against resets only.
  - The only outside interference modelled is a reset at the two checkpoints
    of a bot's step. A reset can only run while the turn is suspended at an
    `await`, and a bot's step has exactly two: the thinking delay and the
    call of `generateBotReply` (the backoff waits are inside the call).
- The prompt wording is modelled as fixed text. Only the persona and
  transcript slots are stated as properties.
- The numeric `status` is an integer, not a JavaScript number.
- `JsString.NumberToString` models `String(n)` only for integers below 10^21
  in magnitude; larger ones print in exponent form ("1e+21") in JavaScript.
  The retry condition does not depend on it: the marker starts with 'R',
  which neither form contains.
- `ChatState` in types.ts is not used by the code and is not modelled as
  such. The model's `TurnSpec.ChatState` is the application's own state.
- All rendering: the JSX of App.tsx and BotManager.tsx, auto-scroll,
  MessageBubble.tsx and Avatar.tsx. The panel's open/close toggle and
  avatar selection are plain field writes and get no methods.
