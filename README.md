# Celebrity chat bot: dialog memory, token accounting, reply decisions and the search proxy

This project models the core of a Telegram chat bot that answers users in
the voice of a chosen persona, and of the small Node.js proxy it uses for
vector similarity search. The model covers the following parts.

- **Dialog memory** (`bot/memory.py`) is a table from user id to a dialog,
  which holds a chat mode, a start time and the list of stored exchanges. The
  class `DialogMemory.Memory` owns the table in a `map` field. Every method is
  proved to perform one transition function: `Ensured`, `Created`, `Appended`,
  `WasReset` or `ModeSet`. Lemmas connect several transitions, such as a run
  of `add_message` calls forming a log.
- **Token accounting** (`bot/database.py`) treats the `user` collection as a
  `map` from user id to a document. Class `UserDatabase.Database` carries out
  `add_new_user` and the read-modify-write of the `n_used_tokens` sub-document.
  A charge and a credit are the functions `Charged` and `Credited`.
- **Pure helpers of the bot** (`bot/bot.py`) live in modules `BotText` and
  `BotMenu`:
  - chunking of a text into slices of fixed size;
  - the substring test and mention removal used in group chats;
  - truncation of answers to 4096 characters;
  - the paginated chat-mode menu, and reading its page numbers back.
- **Reply decisions** (`bot/bot.py`, module `BotReply`):
  - whether the bot was addressed (`is_bot_mentioned`);
  - which text an update carries;
  - how the search query and the completion context are assembled from Python
    values;
  - the completion call with at most three attempts.
- **The handlers** (`bot/bot.py`, module `BotHandlers`):
  - Class `TelegramBot` holds the database, the dialog memory, the users with a
    semaphore and the users with a running task.
  - `MessageHandleFn` and `MessageHandle` are proved against the predicate
    `Served`. `RegisterUserIfNotExists` is proved against `RegisteredStore` and
    `RegisteredTable`. `Served` says what is committed, and when,
    for every combination of guard results, search results and completion
    attempts.
  - The handler takes the form of the history in the prompt as a parameter:
    the stored list, as the code has it, or that list rendered as text. As
    written no message is ever answered (see "Findings").
  - `SuccessfulPaymentHandle` credits six tokens per cent paid.
- **Request validation of the search proxy**
  (`Pinecone_NodeJS_Server/src/index.js`, module `SearchServer`):
  - each endpoint checks for JavaScript-falsy required fields (400) before the
    password (403);
  - it then delegates to the vector store (200 or 500).

Some calls go outside the modelled code: Telegram, the similarity searches,
the completion service, the voice service and the vector store. These calls
are parameters that carry their outcome. `datetime.now()` is the parameter
`now`, and `process.env.PASSWORD` is the parameter `configured`.

Where the design description and the code disagree, the model follows the
code:
- A failed similarity search yields `None`. Adding `None` to a heading string
  raises `TypeError`, so the message ends with the generic apology. It does not
  continue with empty context.
- A failure of the voice step other than a Telegram `BadRequest` also ends with
  the generic apology. The answer is stored and charged but never delivered as
  text.
- The history reset compares the number of stored exchanges with 8192, not a
  number of characters.
- The "..." placeholder and the chat action are sent before the empty-message
  check.

## Model

| member | source | states |
|---|---|---|
| DialogMemory.Created | bot/memory.py:28-36 | the user's dialog is replaced by an empty one with the given mode, or the default mode when none is given, started at `now`; no other user's dialog changes; the exchange invariant is kept |
| DialogMemory.Ensured | bot/memory.py:17-22 | an unknown user gets an empty dialog in the default mode; every existing dialog, the user's own included, is unchanged |
| DialogMemory.Appended | bot/memory.py:38-47 | exactly one exchange `("User said:"+h, "You said:"+b)` is added at the end of the (possibly fresh) dialog; earlier exchanges, the mode and the start time are unchanged, and so are the other users |
| DialogMemory.WasReset | bot/memory.py:50-55 | no exchanges and start time `now`; a known user keeps the mode, an unknown one gets the default dialog; other users unchanged |
| DialogMemory.ModeSet | bot/memory.py:57-61 | a known user's mode changes and nothing else does; an unknown user is the `NoDialogFound` error |
| DialogMemory.EnsuredIdempotent | bot/memory.py:17-22 | reading a dialog a second time, at any time, changes nothing more |
| DialogMemory.AppendedAllIsLog | bot/memory.py:38-43 | after any run of `add_message` calls the dialog is the earlier exchanges followed by the new ones, prefixed, in call order, with the mode and the start time it had; other users unchanged |
| DialogMemory.Memory.constructor | bot/memory.py:13-15 | an empty table and the given default mode, `"sweet"` unless stated |
| DialogMemory.Memory.GetDialog | bot/memory.py:17-22 | the table becomes `Ensured(old table)` and the result is the user's dialog, never absent |
| DialogMemory.Memory.GetChatMode | bot/memory.py:24-26 | the user's mode after `get_dialog` has ensured the dialog |
| DialogMemory.Memory.CreateDialog | bot/memory.py:28-36 | the table becomes `Created(old table, ...)` |
| DialogMemory.Memory.AddMessage | bot/memory.py:38-47 | the table becomes `Appended(old table, ...)`; the branch that raises "No dialog found" is proved unreachable |
| DialogMemory.Memory.ResetDialog | bot/memory.py:50-55 | the table becomes `WasReset(old table, ...)` |
| DialogMemory.Memory.SetChatMode | bot/memory.py:57-61 | the table becomes `ModeSet(...)`'s table, or on the error it is unchanged and the error is returned |
| UserDatabase.NewUserDocument | bot/database.py:32-43 | the new document's usage is input 0, output 0 and the configured starting balance remaining |
| UserDatabase.WithNewUser | bot/database.py:45-46 | a missing user's document is inserted; an existing user's document and every other are kept |
| UserDatabase.StoredUsage | bot/database.py:48-55 | the stored usage, or `UserDoesNotExist` for a missing user and `NotSubscriptable` when the attribute is absent or not a usage record |
| UserDatabase.Charged | bot/database.py:84-88 | the counters grow by exactly the reported amounts; the balance is the old one less the output, and never below 0 |
| UserDatabase.Credited | bot/database.py:103-104 | the balance grows by exactly the amount; the counters are unchanged |
| UserDatabase.WithUsage | bot/database.py:57-59 | only the usage attribute of the chosen user is replaced |
| UserDatabase.ChargeFromFiveByTen | bot/database.py:86-88 | a balance of 5 charged 10 output tokens becomes 0 |
| UserDatabase.ChargedExactly | bot/database.py:86-88 | a covered charge subtracts exactly, an uncovered one leaves exactly 0 |
| UserDatabase.Database.constructor | bot/database.py:10-14 | an empty collection and the configured starting balance |
| UserDatabase.Database.CheckIfUserExists | bot/database.py:16-23 | true exactly when the user is stored; a missing user is an error only when raising was asked for |
| UserDatabase.Database.AddNewUser | bot/database.py:25-46 | the collection becomes `WithNewUser(old collection, ...)`: an existing user is never overwritten |
| UserDatabase.Database.GetUserAttribute | bot/database.py:48-55 | a missing user is `UserDoesNotExist`; an absent key is `None`; otherwise the stored value |
| UserDatabase.Database.SetUserAttribute | bot/database.py:57-59 | only the chosen key of the chosen user changes; a missing user is an error and nothing changes |
| UserDatabase.Database.ReadUsage | bot/database.py:93-97 | reads the usage sub-document as `StoredUsage` describes |
| UserDatabase.Database.UpdateNUsedTokens | bot/database.py:61-91 | the user's usage becomes `Charged(old usage, ...)` and the new balance is returned; on an error nothing changes |
| UserDatabase.Database.GetRemainingTokens | bot/database.py:93-97 | the stored balance, or the error of reading it |
| UserDatabase.Database.IncreaseRemainingTokens | bot/database.py:99-106 | the user's usage becomes `Credited(old usage, amount)` and the new balance is returned; on an error nothing changes |
| BotText.ChunksFrom | bot/bot.py:79-81 | the chunks from an offset concatenate to the rest of the text, each is non-empty and at most the size, and all but the last have exactly the size |
| BotText.SplitTextIntoChunks | bot/bot.py:79-81 | for a positive size, the chunks concatenate to the text, each is non-empty and at most the size, and all but the last have exactly the size; size 0 is the `range()` error; a negative size gives no chunks |
| BotText.ChunkCount | bot/bot.py:79-81 | the number of chunks is the length divided by the size, rounded up |
| BotText.Contains | bot/bot.py:105 | true exactly when the pattern occurs somewhere in the text |
| BotText.RemoveAll | bot/bot.py:234-235 | removing the mention never lengthens the text; what it removes is stated by `RemoveAllFirstOccurrence` and `RemoveAllAbsent` |
| BotText.RemoveAllFirstOccurrence | bot/bot.py:234-235 | `replace` keeps the text before the leftmost occurrence, drops that occurrence and goes on after it, so removed occurrences never overlap |
| BotText.RemoveAllAbsent | bot/bot.py:234-235 | a text without the mention comes back unchanged |
| BotText.RemoveAllNotClosing | bot/bot.py:234-235 | removal is a single left-to-right pass: "@@botbot" without "@bot" is "@bot" |
| BotText.Strip | bot/bot.py:236 | the result is a contiguous part of the text, everything before and after it is whitespace, and it neither starts nor ends with whitespace |
| BotText.WithoutMention | bot/bot.py:233-236 | the result is the text left after the mention's removal with only surrounding whitespace taken off, so it neither starts nor ends with whitespace; a text without the mention is only stripped; never longer than the original |
| BotText.Truncated | bot/bot.py:325 | the answer's prefix of length min(length, 4096) |
| BotText.DecimalString | bot/bot.py:455 | a page number prints as a non-empty string of digits without a leading zero, starting with '0' only for 0 |
| BotText.ParseInt | bot/bot.py:501 | a number is read exactly from a run of digits with an optional minus sign; a run of digits reads as its decimal value, and a minus sign followed by one reads as its negation; a negative number has the minus sign |
| BotText.DecimalRoundTrip | bot/bot.py:501 | a printed page number parses back to itself |
| BotText.CanonicalRoundTrip | bot/bot.py:501 | a numeral without a leading zero parses to a number that prints back as the same numeral |
| BotMenu.PySlice | bot/bot.py:435-437 | Python slicing with clipping: the elements between the clipped bounds, or none |
| BotMenu.PageModes | bot/bot.py:434-437 | page `p` holds exactly min(n, count − p·n) modes (none past the end), and they are `keys[p*n + i]` in order |
| BotMenu.PaginationRow | bot/bot.py:447-477 | there is a row exactly when the modes exceed one page; the first page gets only "»" to 1, the last only "«" to p-1, any other both |
| BotMenu.GetChatModeMenu | bot/bot.py:429-481 | the heading with the number of modes, one button row per mode of the page in order with callback `set_chat_mode|key`, then the pagination row when there is one |
| BotMenu.SplitBar | bot/bot.py:501 | splitting on the bar character yields at least one field, no field holds a bar, and the fields joined with bars give the data back |
| BotMenu.RequestedPage | bot/bot.py:501-503 | a page is read exactly when the callback data has a second field that parses to a number that is not negative, and it is that number |
| BotMenu.ShowPageRoundTrip | bot/bot.py:447-501 | the callback data of a page button parses back to that page |
| BotMenu.PaginationLandsOnModes | bot/bot.py:447-477 | on a page that starts inside the list of modes, the callback data of every pagination button parses to a page number that is not negative and whose page starts inside the list too; that page lists at least one mode exactly when the page size is positive (a page size of 0 shows only empty pages) |
| BotReply.MentionCheck | bot/bot.py:99-110 | the check raises on a missing message, on a missing bot username for a group message with text, and on a replied-to message without a sender |
| BotReply.IsBotMentioned | bot/bot.py:98-114 | true exactly when the chat is private, or the text contains "@"+username, or the message replies to the bot, or the check raised |
| BotReply.GroupChatterIgnored | bot/bot.py:98-114 | a group message that neither mentions nor replies to the bot is not for it |
| BotReply.PrepareIncoming | bot/bot.py:229-236 | the message object is the edited message, else the message itself. A private chat keeps a non-empty transcription, else the text. A group chat gets that text with the mention removed and stripped. The handler raises exactly when there is no message object, or when a group message has no text or the bot has no username |
| BotReply.PyTail | bot/bot.py:282 | `v[-n:]` is the last min(n, length) characters of a string or elements of a list; `None` cannot be sliced |
| BotReply.PyAdd | bot/bot.py:282-297 | `+` concatenates two strings or two lists, in order, and raises `TypeError` for any other pairing |
| BotReply.PyJoin | bot/bot.py:298-301 | `"".join` succeeds exactly when every part is a string, and then gives their concatenation in order |
| BotReply.BuildPrompt | bot/bot.py:282-301 | the query and the context are built exactly when the history is a string and both searches answered; every failure is a `TypeError` |
| BotReply.AsWrittenPromptRaises | bot/bot.py:282 | with the stored list of exchanges as history, building the query raises `TypeError` for every message and search result |
| BotReply.HistoryText | bot/bot.py:251 | the corrected history text: empty for no exchanges, and at least two characters (the line ends) per exchange; what it holds is stated by `BotReply.HistoryTextAfterAppend` |
| BotReply.HistoryTextAfterAppend | bot/memory.py:38-47 | for the corrected history text, storing an exchange adds exactly its two prefixed lines to the end of the text |
| BotReply.TextHistoryPromptBuilds | bot/bot.py:282-301 | for the corrected history text, the prompt builds exactly when both searches answered. The query is the last min(150, length) history characters followed by the incoming message. The context is background, memories, recent heading and history, in that order |
| BotReply.FirstSuccess | bot/bot.py:302-319 | the first completion attempt that succeeded, with every attempt before it failed; none when all failed |
| BotReply.SendWithRetry | bot/bot.py:302-319 | at most three calls, stopping at the first success and returning its completion; after three failures the `NameError` |
| BotHandlers.RegisteredStore | bot/bot.py:84-91 | every stored user's document is kept, and a missing user is added with the new-user document built from the Telegram user's id, names and `now` |
| BotHandlers.RegisteredTable | bot/bot.py:85-92 | a dialog is created only when the collection lacked the user |
| BotHandlers.RegistrationIdempotent | bot/bot.py:84-95 | registering a second time, at any time, changes neither the collection nor the dialogs |
| BotHandlers.NewUserStartsFresh | bot/bot.py:84-92 | a newly registered user has no usage, the starting balance and an empty dialog in the default mode |
| BotHandlers.AfterDialogRead | bot/bot.py:243-257 | reading the dialog ensures it exists, and a dialog with more than 8192 exchanges is emptied and restarted at `now`; a missing user gets a new empty dialog in the default mode started at `now` |
| BotHandlers.Delivered | bot/bot.py:341-380 | the stored answer reaches the user exactly when `send_voice` returned; it is voiced exactly when deleting the placeholder succeeded too, and the placeholder is left when deleting it raised `BadRequest`. A `BadRequest` from `send_voice` leaves the user without the answer. A `BadRequest` from `generateVoice` does too when it is "not modified", and otherwise ends with the apology, like any other exception. "Something went wrong, please try again." follows exactly a `BadRequest` from `send_voice` or `delete_message` that is not "not modified" |
| BotHandlers.Served | bot/bot.py:242-380 | in every case, at most three attempts. With no attempt, nothing is committed but the dialog read. With the stored list, as written, no attempt is made and every message past the guards gets the apology. With the corrected history and both searches answered, at least one attempt is made |
| BotHandlers.ServedUncommitted | bot/bot.py:260-380 | on every early return and every apology before the answer is stored, nothing is committed beyond the dialog read, whichever history form the prompt uses |
| BotHandlers.ServedCommitted | bot/bot.py:325-339 | once the prompt is built (which only the corrected history allows) and an attempt succeeded, the truncated answer is appended to the dialog and the usage becomes `Charged` by the completion's counts |
| BotHandlers.AsWrittenNeverAnswers | bot/bot.py:242-380 | with the stored list as history, as written, no completion is attempted and nothing but the dialog read is committed; the outcome is the apology exactly when the guards pass |
| BotHandlers.FirstAnswer | bot/bot.py:242-339 | with the corrected history, a new user's first non-empty message, answered at the first attempt, leaves a dialog of exactly that exchange. The usage counters become the completion's, and the balance becomes the starting one less the output, not below 0 |
| BotHandlers.TelegramBot.constructor | bot/bot.py:46-51 | no user has a semaphore or a task |
| BotHandlers.TelegramBot.RegisterUserIfNotExists | bot/bot.py:84-95 | the collection becomes `RegisteredStore`, the dialogs `RegisteredTable`; the user has a semaphore afterwards |
| BotHandlers.TelegramBot.MessageHandleFn | bot/bot.py:242-380 | the outcome and new state satisfy `Served` for the given history form. Crashed exactly on an unreadable balance; OutOfTokens exactly on a balance ≤ 0; EmptyMessage exactly on a positive balance and an empty message, in that order. A completion is attempted only once the prompt is built. Answer and charge are committed exactly when an attempt succeeds. With `StoredList`, the code as written, that never happens (`AsWrittenNeverAnswers`) |
| BotHandlers.TelegramBot.MessageHandle | bot/bot.py:223-394 | ignored with no change exactly when the bot was not addressed; a crash before registration changes nothing. Otherwise the user is registered and served, for the given history form, and their `user_tasks` entry is gone on exit |
| BotHandlers.TelegramBot.SuccessfulPaymentHandle | bot/bot.py:169-181 | the payer's balance grows by six tokens per cent paid, and nothing else changes |
| SearchServer.Gate | Pinecone_NodeJS_Server/src/index.js:33-42 | a falsy required field is 400 with the endpoint's message; then a password unequal to the configured one is 403; only then is the request let through |
| SearchServer.HandleSearch | Pinecone_NodeJS_Server/src/index.js:30-57 | the store is queried exactly when all four fields are truthy and the password matches, with the body's index name, namespace and query |
| SearchServer.HandleUpsert | Pinecone_NodeJS_Server/src/index.js:61-90 | the store is called exactly when all five fields are truthy and the password matches, with the body's index name, namespace, chunk size and document |
| SearchServer.HandleCreateIndex | Pinecone_NodeJS_Server/src/index.js:92-119 | the index is created exactly when password and index name are truthy and the password matches, with the body's index name and dimension 1536 |
| SearchServer.MissingFieldBeforePassword | Pinecone_NodeJS_Server/src/index.js:33-99 | on every endpoint a falsy required field is 400 whatever the password, and no store call is made |
| SearchServer.WrongPasswordRefused | Pinecone_NodeJS_Server/src/index.js:38-104 | on every endpoint, with all fields present, a wrong password is 403 and nothing reaches the store |
| SearchServer.UnsetPasswordRefusesAll | Pinecone_NodeJS_Server/src/index.js:38-104 | with no configured password no request reaches the store |
| SearchServer.AcceptedRequestDelegates | Pinecone_NodeJS_Server/src/index.js:44-118 | a request that passes makes one store call: 200 with its result, or 500 with the error's text |
| SearchServer.ZeroChunkSizeRejected | Pinecone_NodeJS_Server/src/index.js:64-69 | `/upsert` with chunk size 0 is 400 |
| SearchServer.CreateIndexAlwaysFull | Pinecone_NodeJS_Server/src/index.js:95-112 | for every body with a truthy index name and the right non-empty password, whatever else it holds, `/createIndex` asks for that index with dimension 1536 |
| SearchServer.TopKIgnored | Pinecone_NodeJS_Server/src/index.js:31-56 | a `topK` in the body changes neither the `/search` response nor its store call |

## Left out

- Concurrency: the per-user semaphores and the task are reduced to the sets of
  users holding them. The model covers neither waiting on a semaphore
  (`is_previous_message_not_answered_yet`), cancellation, nor interleavings
  between users.
- Telegram I/O other than a `BadRequest` in the voice step is assumed to
  succeed:
  - the "..." placeholder, the chat action, every reply;
  - invoices, pre-checkout answers;
  - `run_bot` and `post_init`.
  A failure in any of these would be one more way to reach the generic
  apology.
- `chat_mode` is read from the dialog, as the handler does, but its effect on
  the completion is part of the completion outcome that is given as a
  parameter.
- The long-term archive call on reset (bot/bot.py:257) is modelled only by its
  reset. Its coroutine is never awaited, and the `None` that `reset_dialog`
  returns is passed to it.
- The other handlers are not part of this model:
  - `start`, `help`, `policy`, `help_group_chat`, `deposit`, `send_invoice`,
    `show_balance`, `set_chat_mode`, `error_handle`;
  - `voice_message_handle`, of which only the transcribed text passed as
    `message` appears;
  - `delete_memory_handle`, which calls a `delete_memory` method that `Memory`
    does not define.
- BotMenu.RequestedPage: models only how `show_chat_modes_callback_handle`
  reads the callback data (bot/bot.py:501-503), not what the handler shows.
  Before that, bot/bot.py:496 reads `update.message.from_user`. On a
  callback-query update python-telegram-bot leaves `update.message` unset, so
  as written that line raises `AttributeError` and no pagination button ever
  shows a page. The library's `Update` is not part of this model, so this is
  not stated as a finding. The registration at 495 is not modelled either.
- bot/long_term.py, the voice modules, bot/config.py and the one-off scripts
  are not part of this model. Neither are the Mongo backup and load of short
  term memory, nor the benchmark scripts.
- Pinecone_NodeJS_Server/src/updatePinecone.js, queryPinecone.js and
  createPineconeIndex.js are not part of this model. The vector store is an
  outcome parameter, and the Pinecone client initialisation is left out.
- The search proxy's JSON parsing (malformed bodies) and the HTTP framework
  are left out. Bodies are maps of JSON values, and JSON numbers are reals.
- Python's aliasing of dialog dictionaries is kept only where it matters. The
  handler builds its prompt from the list it read before a reset, as the code
  does.
- Telegram's `BadRequest` from the voice step is told apart only by the call
  that raised it and by whether its text starts with "Message is not
  modified". The logging in each branch is left out. `generateVoice`
  (bot/voice_clone.py:13-37) raises a plain `Exception` on a failed request,
  never a `BadRequest`, so `BadRequest(GenerateVoice, _)` cannot arise from
  that code. The case is kept because bot/bot.py:343 sits inside the `try` whose
  `except` at bot/bot.py:362 handles it. The plain exception is
  `VoiceRaised`.
- BotText.ParseInt: accepts only an optional minus sign followed by ASCII
  digits. Python's `int()` also accepts surrounding whitespace, a plus sign,
  underscores and other Unicode digits. The model reads those spellings as
  invalid pages.
- Whitespace: the set of `str.strip()`'s whitespace is written out by code
  point. There is no Unicode database.
- Datetimes are integer ticks, so `first_seen` is `now`.
- Python integers are unbounded, and so are the model's. No width is modelled.

## Findings

| source | as written | input that shows it | evidently intended | confidence | as-written member | corrected member |
|---|---|---|---|---|---|---|
| bot/bot.py:282 | `dialog_messages[-150:] + incoming_message` and the `"".join` at lines 298-301 treat `dialog_messages` as a string, but memory.py stores a list of exchange pairs | any message that passes both guards, e.g. an empty history `[]` with incoming "hi": `[] + "hi"` raises `TypeError`. The apology follows, and no completion is ever attempted | the history as text, as the annotation `dialog_messages: str` says, so that the query and the context can be built | high, not executed | BotHandlers.AsWrittenNeverAnswers | BotHandlers.FirstAnswer |

`BotHandlers.TelegramBot.MessageHandleFn` and `MessageHandle` take the history
form as a parameter. The predicate `Served` describes both forms.
- With `StoredList`, the code as written, `BotReply.AsWrittenPromptRaises`
  shows that the query cannot be built. `BotHandlers.AsWrittenNeverAnswers`
  shows what follows for the handler: every message that passes the guards
  ends with the apology, with no attempt and no charge.
- With `RenderedText`, the corrected history `BotReply.HistoryText` writes
  each half of each exchange on a line of its own.
  `BotReply.TextHistoryPromptBuilds` gives the prompt built from it.
  `BotHandlers.ServedCommitted` and `BotHandlers.FirstAnswer` state what is
  then stored and charged.
