# ai-tg-bot conversation core, in Dafny

A model of the core of a Telegram chat-relay bot: the per-user conversation
state, the slash-command dispatcher that changes it, and the pure part of the
OpenAI-compatible backend (the list of request turns built from a
conversation, and the reply taken from the first response choice).

- `wrappers.dfy` — `Option` and a `Result` whose error is a message string.
- `models.dfy` (module `Models`, from `src/models/mod.rs`) — `Role`,
  `ChatMessage`, `Conversation`, the value `State` of a user's state
  (conversations plus a possibly stale active index), and the mutable class
  `UserState`, whose abstract value is `Snapshot()`.
- `bot.dfy` (module `Bot`, from `src/bot/mod.rs`) — `CommandResult`, the
  command-line split, the reply strings, the pure transition `Transition`
  that specifies the dispatcher, the imperative `HandleCommand` that changes a
  `UserState` in place and is proved to agree with `Transition`, and one lemma
  per command about what changes and what does not.
- `openai.dfy` (module `OpenAI`, from `src/ai/openai.rs`) — the abstract turn
  type standing for the `async_openai` request messages, `RequestMessages`,
  `FirstChoice`, and a read-back function proving that a request carries the
  conversation's system message and transcript without loss.
- `scenarios.dfy` (module `Scenarios`) — concrete sessions tying the modules
  together, including a client of the imperative API.

Design decisions:

- Where the bot hands back a `&mut Conversation` (the result of
  `get_current_conversation`, `get_or_create_conversation`, and the
  `RegenerateLastMessage` and `GenerateDescription` directives), the model
  returns the conversation's index. Conversations are values; an edit through
  the reference becomes a reassignment of `UserState.conversations` at that
  index.
- `Conversation::default` reads the clock for its name. The formatted time is
  the parameter `now`, so the default name is `"Conversation from " + now`.
- `handle_command` returns `anyhow::Result`, but no path returns an error, so
  the model returns a `CommandResult` directly.
- `/redo` does not remove the last message and accepts an empty transcript:
  `map_or(false, …)` at src/bot/mod.rs:104-112 refuses only a last message
  that exists and is not the bot's. `Bot.RedoNeverMutates` and
  `Scenarios.RedoKeepsLastReply` state this.
- The source does not keep the index in bounds as an invariant (a stored
  state may hold a stale index, which `get_or_create_conversation` repairs).
  `Bot.TransitionPreservesWellFormed` proves that every command keeps an
  in-bounds index in bounds.

## Model

| member | source | states |
|---|---|---|
| `Models.NewMessage` | src/models/mod.rs:35-41 | content is kept; no sender gives role `Assistant`, sender `n` gives `User(n)` (both directions) |
| `Models.DefaultConversation` | src/models/mod.rs:88-100 | a fresh conversation has empty messages, no system message, no description, and the timestamped default name |
| `Models.Display` | src/models/mod.rs:102-110 | the display string starts with the name; it equals the name exactly when there is no description; otherwise the rest is `": "` followed by the description |
| `Models.CurrentConversation` | src/models/mod.rs:57-60 | the lookup succeeds exactly when the index is set and below the number of conversations, and then returns that index |
| `Models.GetOrCreate` | src/models/mod.rs:61-70 | afterwards the index is set and in bounds; a valid index leaves the state unchanged; otherwise exactly one default conversation is appended, earlier ones are kept, and the new index is the old length |
| `Models.UserState.GetOrCreateConversation` | src/models/mod.rs:61-70 | the in-place update leaves the object's value and the returned index as `GetOrCreate` gives them |
| `Models.UserState.constructor` | src/models/mod.rs:47-54 | the default user state has no conversations and no active index |
| `Bot.IndexOfSpace` | src/bot/mod.rs:44 | finds the first space: the character there is a space and none precedes it; no result means there is no space |
| `Bot.SplitCommand` | src/bot/mod.rs:44 | the token has no space; with a space the line is token, space, rest; without one the token is the line and the rest is empty |
| `Bot.SplitCommandUnique` | src/bot/mod.rs:44 | any split of a line into a space-free token, a space and a rest is the one `SplitCommand` returns |
| `Bot.JoinSnoc` | src/bot/mod.rs:78-83 | joining one more string onto a non-empty list appends the separator and that string |
| `Bot.DisplayAll` | src/bot/mod.rs:78-82 | one display string per conversation, in order |
| `Bot.HandleCommand` | src/bot/mod.rs:43-119 | the in-place dispatcher leaves the state and returns the directive exactly as `Transition` gives them |
| `Bot.NeedsConversationUnchanged` | src/bot/mod.rs:46-103 | `/reset`, `/desc`, `/system` and `/redo` without a valid active conversation change nothing and reply that a conversation is required, naming the command |
| `Bot.ResetClears` | src/bot/mod.rs:50-57 | `/reset` empties the active conversation's messages and drops its system message, keeps its name and description, the other conversations and the index, and replies "Conversation reset!" |
| `Bot.RenameNames` | src/bot/mod.rs:58-64 | after `/rename` a valid conversation is active and its name is the rest of the line, even when empty; with a valid index nothing is added and only that conversation's name changes; otherwise a renamed default conversation is appended and made active |
| `Bot.DescPointsAtCurrent` | src/bot/mod.rs:65-70 | `/desc` with an active conversation changes nothing and asks for a description of that conversation |
| `Bot.NewClearsIndex` | src/bot/mod.rs:71-76 | `/new` clears the active index, keeps every conversation and replies "New conversation started" |
| `Bot.ListReadOnly` | src/bot/mod.rs:77-87 | `/list` changes nothing and replies with the header followed by the display strings joined by blank lines |
| `Bot.SystemSets` | src/bot/mod.rs:88-99 | `/system` with no text changes nothing and asks for text; with text it sets the active conversation's system message to it and replies "System message set!" |
| `Bot.RedoNeverMutates` | src/bot/mod.rs:100-114 | `/redo` never changes the state; it is refused exactly when a last message exists and a user sent it; otherwise, an empty transcript included, it asks to regenerate the active conversation |
| `Bot.UnknownUnchanged` | src/bot/mod.rs:115-117 | any other token changes nothing and replies "Unknown command" with the token |
| `Bot.TransitionFrame` | src/bot/mod.rs:43-119 | no command removes a conversation or changes a description, at most one conversation is added and only by `/rename`, and a transcript either stays or is emptied |
| `Bot.TransitionPreservesWellFormed` | src/bot/mod.rs:43-119 | an in-bounds active index stays in bounds after any command |
| `Bot.DirectivesNameCurrent` | src/bot/mod.rs:65-114 | a directive other than a reply leaves the state unchanged and names its active conversation |
| `OpenAI.MessageTurn` | src/ai/openai.rs:44-56 | a message becomes a non-system turn with the same content: an assistant turn exactly for the bot's messages, a user turn with the sender's name otherwise |
| `OpenAI.MessageTurns` | src/ai/openai.rs:43-57 | one turn per message, in order |
| `OpenAI.RequestMessages` | src/ai/openai.rs:31-57 | the request has one turn per message plus one for a system message; the system turn, when present, comes first; message `k` maps to the turn after it; no later turn is a system turn |
| `OpenAI.FirstChoice` | src/ai/openai.rs:68-72 | the reply is the first choice's content when there is a first choice with content; otherwise the error "OpenAI client returned empty response!" |
| `OpenAI.TurnMessagesInverse` | src/ai/openai.rs:43-57 | reading the turns of a transcript back gives the transcript |
| `OpenAI.RequestRoundTrip` | src/ai/openai.rs:30-57 | reading a request back gives exactly the conversation's system message and messages: the system message never comes from the transcript and nothing is lost |
| `OpenAI.NewMessageTurn` | src/ai/openai.rs:44-56 | a message made without a sender is sent as an assistant turn, one with sender `n` as a user turn named `n` |
| `Scenarios.FirstConversationIsZero` | src/models/mod.rs:64-68 | a user with no conversations gets exactly one default conversation, at index 0 |
| `Scenarios.ResetEmptiesRequest` | src/bot/mod.rs:54-55 | after `/reset` the next request for that conversation has no turns |
| `Scenarios.HelpIsUnknown` | src/bot/mod.rs:115-117 | `/help`, although listed among the commands, is answered "Unknown command /help." and changes nothing |
| `Scenarios.EmptySystemAsksForText` | src/bot/mod.rs:92-96 | `/system ` with nothing after the space changes nothing and asks for a system message |
| `Scenarios.ListThree` | src/bot/mod.rs:77-87 | three undescribed conversations A, B, C, joined one at a time, are listed as "Current conversations: A\n\nB\n\nC" |
| `Scenarios.RenameFresh` | src/bot/mod.rs:58-64 | on a fresh user, `/rename Trip Planning` creates one conversation with that name and makes it active |
| `Scenarios.StoreExchange` | src/main.rs:96-102 | appending the user's message and then the bot's answer to the active conversation changes that transcript only, and nothing else |
| `Scenarios.TripPlanningSession` | src/bot/mod.rs:58-64 | through the mutable object, a fresh user's `/rename Trip Planning` followed by one stored exchange leaves exactly one active conversation with that name and those two messages |
| `Scenarios.RedoKeepsLastReply` | src/bot/mod.rs:100-114 | after one exchange, `/redo` keeps both messages and the request for the regenerated reply still ends with the bot's previous answer |

## Left out

- src/main.rs: Telegram I/O, the typing indicator loop, message handling with network calls, the shared chat map behind a mutex, periodic and shutdown persistence, and environment loading are I/O and concurrency glue. The handler's appends of the user's message and of the bot's reply are modelled only by `Scenarios.StoreExchange`, which the example client `Scenarios.TripPlanningSession` uses.
- What the caller does with `GenerateDescription`: the handler in src/main.rs has no branch for it.
- src/ai/mod.rs (the async `AiModel` trait) and the `Backend` dispatch in src/models/mod.rs:6-22: they only forward to foreign async code.
- The `async_openai` builders and their `unwrap()`s, the HTTP request and its network errors, and the serialisation of the client (src/ai/openai.rs:58-67, 76-97): foreign code; request messages are the abstract `Turn` datatype and a response is the list of its choices' optional contents.
- `description` of the backend: its implementation is not among the source files.
- JSON persistence of `UserState`: it is derived by serde and not visible.
- The clock read in `Conversation::default`: the formatted time is the parameter `now`.
- `UIState` and `Character`: an unused single-variant enum and an unused struct.
- The `COMMANDS` table of command descriptions (src/bot/mod.rs:23-33): it is private and nothing references it.
- Indices are `nat`: a `usize` index into a vector in memory cannot overflow, so no wrap-around is modelled.
- Strings are sequences of characters rather than UTF-8 bytes; splitting at the first space is the same either way.
