# Registration dialogue of the community bot

The bot (`bot.py`) walks a Telegram user through a registration dialogue. It
is an aiogram finite-state machine. The `Registration` states group declares
six states: `name`, `city`, `activity`, `meet`, `mentor` and `contacts`. Six
handlers drive it:

- `command_start` runs on the start command in any state.
- `process_name` runs on a message in `name`.
- `process_city`, `process_activity`, `process_meet` and `finish_registration`
  each run on a button press in their own state.

The handlers do different things:

- `command_start` either answers that the sender is registered, or sets the
  state to `name`. It stores nothing.
- `process_name`, `process_city`, `process_activity` and `process_meet` each
  set the next state with `set_state`. Each then stores its raw answer in the
  session's data map with `update_data`.
- `finish_registration` sets no state. It stores the contacts answer, builds a
  row from the data map, and inserts the row into the `users` table.

This project models that dialogue in five modules:

- `Wrappers`: `Option` and `Result`.
- `PyText`: the Python built-ins the handlers apply to text. These are `str()`
  of an integer (the payload of a city or activity button), `int()` of a string
  and `bool()` of a string.
- `Commands`: aiogram's `CommandStart()` filter, which decides whether a message
  is the start command.
- `Registration`: the dialogue as a transition system on values.
  - `Route` is the dispatcher's choice of handler. The dispatcher tries the
    handlers in the order they are registered and runs the first that accepts
    the update.
  - `Deliver` gives the effect of one update on the session and on the table.
  - `CommittedRow` is the parameter list of the insert, with Python's errors.
  - `Run` delivers a sequence of updates from one user.
  - The lemmas state what the code does: `/start` keeps the data map; each
    handler advances one step and writes one key verbatim; no input is
    validated; `mentor` can never be reached; `bool('false')` is true; the
    session is not cleared after the commit.
- `Bot`: the handlers as they run.
  - The class `FsmContext` holds `state` and `data`, with `SetState`,
    `UpdateData` and `GetData`.
  - The class `UsersTable` holds the table's rows, with `Insert`.
  - There is one method per handler. Each requires the state its filter names.
  - `Dispatch` runs the matching handler. Its contract says that the new
    context, the new table, the reply and any raised error are exactly what
    `Registration.Deliver` gives.

Modelling decisions:

- The lookup `select 1 from users where tg_username = $1` is `Registered`. A
  sender without a username is passed as NULL. `tg_username = NULL` is never
  true in SQL, so such a sender is never found and always restarts the
  dialogue.
- The `users` table is a sequence of rows with no uniqueness constraint, since
  its schema is not part of the code.
- Replies are reduced to which prompt or notice is sent.
- `int()` is modelled as Python defines it for `str` arguments. Surrounding
  white space is ignored: the ASCII characters tab, line feed, vertical tab,
  form feed, carriage return and space, and the non-ASCII white space of
  `str.isspace()`. The separators U+001C to U+001F are not skipped, although
  `str.isspace()` accepts them. One `+` or `-` sign is allowed. The digits may
  be split by single underscores. Anything else raises `ValueError`.
- The start filter follows aiogram 3's `Command` filter, which is not part of
  this repository. It reads the first word of `text.split(maxsplit=1)`. That
  word must start with `/`. Partitioned at its first `@`, the rest must be the
  command `start`, and the part after the `@` must be empty or the bot's own
  username, compared without regard to case. Text after the first word is not
  looked at.
- `process_name`'s filter accepts every message in `name`, the start command
  included. The start command still reaches `command_start`, because that
  handler is registered first. Any other text, such as `/start@otherbot`, is
  stored as the name.
- When building the row raises `KeyError` or `ValueError`, the confirmation has
  already been sent, no row is inserted, and the context keeps the contacts
  answer. `Delivery.raised` records the error.

A reader might expect a registration bot to behave in ways this code does not.
The model follows the code:

- No answer is validated. The code stores any text or callback payload as
  given.
- There is no mentorship opt-in step. The code declares `mentor` but never
  enters it.
- The yes/no answers are not stored as booleans. The code stores the strings
  `'true'`/`'false'` and applies `bool()`, which is true for both.
- The session is not cleared on commit. The code leaves it in `contacts` with
  its data, so another press inserts again.
- The contacts opt-in is not forced to false for a sender without a username,
  and nothing keeps one member per user.
- `/start` does not clear the data map, so answers from an earlier attempt
  survive a restart.

## Model

| member | source | states |
|---|---|---|
| `Registration.Accepts` | bot.py:46-111 | the filters: `CommandStart()` with no state filter, a message filter on `name`, and a callback filter on each of `city`, `activity`, `meet` and `contacts`; every handler but `command_start` names a state, and none names `mentor` |
| `Registration.Route` | bot.py:46-111 | the handler run for an update is the first, in registration order, whose filter accepts it, and none runs when no filter accepts it; so the start command in `name` goes to `command_start`, not `process_name` |
| `Registration.Registered` | bot.py:48 | the lookup finds the sender exactly when the sender has a username and some row carries it; a sender without a username is never found |
| `Registration.CommittedRow` | bot.py:113-122 | the insert parameters are built exactly when all five keys are present and city and activity parse under `int()`; the row is (name, `int(city)`, `int(activity)`, `bool(meet)`, `bool(contacts)`, sender username); a failure names a missing key or a non-integer city or activity |
| `Registration.Deliver` | bot.py:46-123 | one update never enters `mentor`, never removes a data key, only appends to the table, and appends at most one row; nothing is appended when the handler raises |
| `Registration.Run` | bot.py:46-123 | a sequence of updates only appends to the table, at most one row per update, and never removes a data key |
| `Registration.UnhandledChangesNothing` | bot.py:46-111 | an update no handler's filter accepts leaves the session and the table unchanged and gets no reply |
| `Registration.StartWhenRegistered` | bot.py:48-49 | the start command from a sender whose username is in the table, in any state, answers "already registered" and changes nothing |
| `Registration.StartWhenNotRegistered` | bot.py:46-51 | the start command from anyone else, in any state, moves the session to `name` and keeps the data map, so earlier answers survive |
| `Registration.OneStepPerHandler` | bot.py:57-113 | each registration handler runs only in its own state and moves one step along name, city, activity, meet, contacts; `contacts` stays put; only `name` takes a text message |
| `Registration.OneKeyPerStep` | bot.py:60-113 | each registration handler writes exactly the key of its own state with the raw answer; every other key keeps its value |
| `Registration.NoValidation` | bot.py:71-101 | in `city`, `activity` and `meet` any callback payload is stored as given, the state advances one step, the table is unchanged, and nothing is raised |
| `Registration.NameStored` | bot.py:57-60 | in `name`, every text that is not this bot's start command, a command to another bot included, is stored as the name and the state moves to `city` |
| `Registration.DeliverConsistent` | bot.py:46-113 | one update keeps a session out of `mentor` and keeps the answers of all earlier steps stored |
| `Registration.RunConsistent` | bot.py:46-113 | every sequence of updates keeps a session consistent in that sense |
| `Registration.MentorUnreachable` | bot.py:28-100 | only `command_start` can run in `mentor`, and no sequence of updates from a fresh session reaches it |
| `Registration.ReachableCommit` | bot.py:111-122 | in any reachable `contacts` state every key the row needs is present; the commit raises exactly when the stored city or activity is not an integer, and never with `KeyError` |
| `Registration.ButtonIdsCommitted` | bot.py:66-122 | when city and activity hold the `str(id)` payloads of the rendered buttons, the commit succeeds and the row carries those ids |
| `Registration.FalseAnswerStoredAsTrue` | bot.py:93-122 | answering "no" (`'false'`) to both opt-ins still stores both flags as true |
| `Registration.NonNumericCityWritesNothing` | bot.py:117-122 | a non-numeric stored city makes the commit raise, and no row is written |
| `Registration.SessionNotCleared` | bot.py:111-123 | after the commit the session stays in `contacts` with the contacts answer stored; a second press in that state inserts the same row again |
| `Registration.RegisteredAfterCommit` | bot.py:48-49 | once a sender with a username has committed a row, a later start command from that sender gets "already registered" |
| `Registration.Commit` | bot.py:111-123 | a proof helper: `Deliver` on a button press in `contacts`, unfolded once, in terms of `CommittedRow` |
| `Registration.StartAndName` | bot.py:46-60 | the start command and a name that is not a start command, from an unregistered sender, leave the session in `city` with the name stored over the earlier data |
| `Registration.PressButtons` | bot.py:71-101 | three button presses from `city` store the three payloads and leave the session in `contacts`, the table unchanged |
| `Registration.CollectAnswers` | bot.py:46-101 | the start command, a name and three button presses leave the session in `contacts` with the four answers stored over the earlier data |
| `Registration.CommitAnswers` | bot.py:111-123 | the last press, after the collected answers, stores the contacts answer and inserts the row of those answers |
| `Registration.CompleteDialogue` | bot.py:46-123 | a full dialogue by an unregistered sender inserts exactly one row, built from this attempt's answers with the chosen ids, whatever the earlier session held |
| `Commands.FirstWordSpec` | bot.py:46 | the filter finds no first word exactly in a blank text; otherwise the word holds no white space and stands first in the text |
| `Commands.PartitionSpec` | bot.py:46 | splitting the command word at its first `@`: the first part holds no `@`, and the parts joined by `@` give the word back |
| `Commands.StartWords` | bot.py:46 | the filter accepts exactly the first words `/start` and `/start@` followed by a mention of this bot, or an empty mention |
| `Commands.PlainStart` | bot.py:46 | `/start`, alone or followed by an argument, is the start command |
| `Commands.OtherBotNoStart` | bot.py:46 | `/start@` followed by another bot's name is not this bot's start command |
| `Commands.NoSlashNoStart` | bot.py:46 | a text without `/` is never the start command |
| `PyText.PyInt` | bot.py:122 | `int()` reads an integer only from a string that holds a digit |
| `PyText.SignedDigits` | bot.py:122 | a number read from a stripped string ends in a digit |
| `PyText.Str` | bot.py:66 | `str()` of an integer is non-empty, starts with a digit or `-`, ends with a digit, and starts with `-` exactly for negative numbers |
| `PyText.NatStr` | bot.py:80 | the decimal rendering of a natural number is all digits, with no leading zero |
| `PyText.IntOfStr` | bot.py:122 | `int(str(n)) == n` for every integer `n` |
| `PyText.IntRejectsNonNumeric` | bot.py:122 | `int()` raises on a string whose first character after the stripped white space is neither a sign nor a digit |
| `PyText.IntRejectsWord` | bot.py:122 | `int()` raises on a word of lower-case letters |
| `PyText.IntRejectsAnswerTokens` | bot.py:93 | `int('true')` and `int('false')` raise |
| `PyText.BoolOfAnswerTokens` | bot.py:106 | `bool()` is true of both `'true'` and `'false'` |
| `Bot.FsmContext.constructor` | bot.py:19 | a user unknown to the memory storage has no state and an empty data map |
| `Bot.FsmContext.SetState` | bot.py:51 | `set_state` replaces the state and keeps the data map |
| `Bot.FsmContext.UpdateData` | bot.py:60 | `update_data` sets one key and keeps the state and every other key |
| `Bot.FsmContext.GetData` | bot.py:114 | `get_data` returns the data map as it stands |
| `Bot.UsersTable.Insert` | bot.py:117-123 | the insert appends the row to the table |
| `Bot.CommandStart` | bot.py:46-55 | a registered sender gets the notice and nothing changes; anyone else is moved to `name` with the data kept |
| `Bot.ProcessName` | bot.py:57-69 | in `name`: moves to `city` and stores the message text under `name` |
| `Bot.ProcessCity` | bot.py:71-83 | in `city`: moves to `activity` and stores the callback data under `city` |
| `Bot.ProcessActivity` | bot.py:85-96 | in `activity`: moves to `meet` and stores the callback data under `activity` |
| `Bot.ProcessMeet` | bot.py:98-109 | in `meet`: moves to `contacts`, past `mentor`, and stores the callback data under `meet` |
| `Bot.FinishRegistration` | bot.py:111-123 | in `contacts`: stores the callback data, confirms, and appends `CommittedRow` of the new data or raises its error; the state stays `contacts` |
| `Bot.Dispatch` | bot.py:46-123 | running the first accepting handler, or none, changes the context and the table and replies exactly as `Registration.Deliver` says |

## Left out

- Database I/O: the connection pool, the SQL text and its execution in `get` and `put`, and `main` with polling (bot.py:15, 32-43, 125-131). The table is a sequence of rows, and the lookup and the insert act on it directly.
- Failures of the store: a failed query or insert, such as a foreign-key violation for an id that names no city, is not modelled. An insert whose parameters could be built always succeeds.
- Bot.FinishRegistration: `callback.message.delete()` and `callback.message.answer()` (bot.py:115-116) call the Telegram API before the insert and can raise, for example when the message is too old to delete; then no row is written. The model, like `Registration.Deliver`, always reaches the insert.
- Registration.Deliver, Registration.NameStored and Bot.ProcessName: every handler's send or edit (`message.answer`, `edit_text`; bot.py:49, 52, 62, 76, 89, 102, 115-116) can raise after whatever `set_state` and `update_data` precede it have taken effect. The bot sends in HTML parse mode (bot.py:18), and `process_name` puts the raw name into its greeting (bot.py:63). So a name with an unescaped `<`, or one long enough to push the greeting past Telegram's length limit, always makes the handler raise: the session moves to `city` with the name stored, but no city keyboard is sent. The model reports every prompt as sent and records only the errors of building the committed row.
- The city and activity lists fetched to build the keyboards (bot.py:61, 75). The dialogue never checks a payload against them, so only the payload values matter.
- Message texts, inline keyboards, `edit_text`, `delete` and `ReplyKeyboardRemove` (bot.py:52-55, 62-69, 76-83, 89-96, 102-109, 115-116). Replies are reduced to which prompt or notice is sent.
- Non-text messages in `name`: `process_name` also runs on a photo or sticker, whose `message.text` is `None`. The model's data map holds strings only, so its message event always carries text. The start filter also reads a media caption; captions are not modelled.
- Commands.SameIgnoringCase: folds the case of ASCII letters only, where Python's `str.lower()` also folds other scripts.
- The bot's username, which the start filter fetches with `bot.me()`, is a parameter of the world.
- PyText.PyInt: does not model Python's limit of 4300 digits on `int()` of a string, above which Python raises `ValueError`, nor the non-ASCII decimal digits Python also accepts.
- PyText.IntOfStr: holds for every integer in the model, while Python's `str()` raises `ValueError` on an integer of more than 4300 digits.
- The dispatcher's internals: asynchronous execution, the memory storage's keying of sessions by chat and user, and concurrent updates (bot.py:18-19). The model follows one user's session, and one update completes before the next starts.
- Configuration, the token and logging (bot.py:13, 17, 20).
