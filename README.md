# Telegram auto-response bot: configuration and start-up logic

The bot is a single script (`main.py`) that logs into Telegram, subscribes to
new messages in chosen chats from chosen users, and answers `+` to messages
matching a regular expression. Nearly all of it is I/O through the Telethon
client and `asyncio`. This project models the parts that decide something
on their own:

- the parser that turns `CHAT_IDS` / `USER_IDS` (`"100,200,"`) into lists of
  integer ids (`IdList`, `id_list.dfy`);
- `load_env_variables`: reading the credentials, the two id lists and the
  pattern out of the `.env` dictionary, with its exceptions in the order the
  statements raise them (`Config`, `config.dfy`);
- the dialog-name filter of `list_chats`, and its loop, as a method that
  returns the dialogs it prints (`Dialogs`, `dialogs.dfy`);
- the body of `main`: which coroutines are appended to `tasks` for the
  command-line flags, and whether `main` gathers them, prints "No tasks to
  run", or raises (`Tasks`, `tasks.dfy`).

`wrappers.dfy` holds `Option` (a value that may be `None`) and `Result`
(a value or a raised exception).

Behaviour modelled as the code has it:

- The id parser always drops the text after the last comma:
  `"100,200"` gives `[100]`. It does not treat a missing trailing comma
  specially.
- The id lists are Python lists, kept as `seq<int>` (order and duplicates
  kept), not sets.
- A missing `CHAT_IDS` or `USER_IDS` is an error: the default `[]` has no
  `split`, so the call raises `AttributeError`.
- A non-empty `--pattern` raises `AttributeError`. `ClientParams` is a slots
  dataclass without a `set` method. The error happens after the profile and
  chat-list coroutines are appended and before anything is gathered. The
  model returns `NoSetMethod`; it does not treat the flag as an override.
- The session name is the fixed `tg_session`. `SESSION_NAME` is never read.
- Before gathering, `main` prints the end time `datetime.now() + timer`.
  When that instant falls outside the years 1 to 9999 the addition raises
  `OverflowError` and nothing is gathered. The clock reading is a parameter
  of `StartUp`.
- A `PATTERN` key written without a value gives the pattern `None`, since
  `dict.get` returns the stored `None` rather than the default.

## Model

| member | source | states |
|---|---|---|
| `IdList.ParseIds` | main.py:104-105 | a successful parse yields exactly one id per comma in the text |
| `IdList.Split` | main.py:104 | `str.split(',')`: the segments contain no comma, join back to the text, and number one more than the commas |
| `IdList.ParseSegments` | main.py:104 | the comprehension `[int(u) for u in segs]`: succeeds iff every segment is an integer literal, giving one id per segment, each equal to `int` of its segment; otherwise it raises on the first invalid segment |
| `IdList.IntLiteralRoundTrip` | main.py:104 | `int(str(x)) == x` for every integer, and `str(x)` contains no comma |
| `IdList.ParseIdsIsComprehension` | main.py:104-105 | the recursive parser equals the comprehension over `text.split(',')[:-1]` |
| `IdList.ParseIdsSucceedsIff` | main.py:104-105 | parsing succeeds iff every segment before the last comma is an integer literal; an error names the first one that is not |
| `IdList.ParseFormatRoundTrip` | main.py:104-105 | writing any list of ids as decimal literals, each followed by a comma, parses back to that list |
| `IdList.ParseIdsAppend` | main.py:104-105 | parsing two texts joined at a comma boundary gives the first error or the concatenation of both lists |
| `IdList.TrailingSegmentIgnored` | main.py:104-105 | text after the last comma never changes the result |
| `IdList.EmptySegmentRejected` | main.py:104-105 | a leading comma raises `int('')`, and so do two adjacent commas anywhere |
| `IdList.ExampleTrailingComma` | main.py:104 | `"100,200,"` gives `[100, 200]` |
| `IdList.ExampleNoTrailingComma` | main.py:104 | `"100,200"` gives `[100]` |
| `IdList.ExampleEmptyAndErrors` | main.py:104 | `""` gives `[]`, while `","` and `"1,,2,"` raise on the empty segment |
| `Config.LoadIdList` | main.py:104-105 | a missing key raises `AttributeError`; otherwise the result is the id parser's result for the stored text, with its error labelled by the key |
| `Config.LoadConfig` | main.py:100-110 | a missing `API_ID` fails first; loading succeeds iff `API_ID` is an integer literal, both id lists parse and `API_HASH` is set; the result carries `int(API_ID)`, the hash verbatim, both parsed lists, and `PATTERN` verbatim when present, otherwise `DEFAULT_TRAINING_PATTERN` |
| `Config.CredentialCheck` | main.py:101-110 | the `RuntimeError` is raised iff everything before it succeeded and `API_HASH` is missing; it is never raised for a missing `API_ID` |
| `Config.IdListsIndependent` | main.py:104-105 | changing `USER_IDS` leaves the chat list unchanged, and the user list is the id parser's result for the new text |
| `Config.LoadConfigRoundTrip` | main.py:100-110 | a `.env` holding an id, a hash and two id lists written as decimal literals each followed by a comma, and no `PATTERN`, loads as exactly those values with `DEFAULT_TRAINING_PATTERN` |
| `Dialogs.KeepDialogIff` | main.py:60 | a dialog is hidden iff its name ends in `b`, `o`, `t`, each in either case |
| `Dialogs.KeptMembers` | main.py:59-61 | the listing holds exactly the dialogs whose name passes the filter |
| `Dialogs.ListChats` | main.py:56-61 | the loop prints exactly the dialogs that pass the filter, in the order they arrive |
| `Dialogs.Examples` | main.py:60 | `WeatherBot` and `news_BOT` are hidden; `Volleyball chat` and `Bottle club` are listed |
| `Tasks.SelectTasks` | main.py:123-133 | profile iff `me`, chat list iff `my_chats`, bot iff `run`, disconnect timer iff `run` and `timer > 0` (with that timer); each at most once, in that order |
| `Tasks.NoTasksIff` | main.py:135-141 | the task list is empty iff none of `me`, `my_chats`, `run` is set |
| `Tasks.BuildTasks` | main.py:123-133 | the `append` sequence yields the selected tasks, or the `AttributeError` of `params.set` when `--pattern` is non-empty |
| `Tasks.EndTimeBounds` | main.py:137 | a zero timer never makes the end time overflow, the default 15 s only in the last 15 s of year 9999, and a timer longer than the whole `datetime` range always does |
| `Tasks.EndTimeOverflowExamples` | main.py:137 | at the start of 2026, `--timer 300000000000` and `--timer -70000000000` overflow while the default timer does not |
| `Tasks.StartUp` | main.py:118-141 | a configuration error ends `main`; otherwise a non-empty `--pattern` raises; otherwise "No tasks to run" happens iff none of the three flags is set; with tasks selected, the end-time print raises `OverflowError` iff now + timer leaves the `datetime` range, and otherwise the selected tasks are gathered |
| `Tasks.TimerExamples` | main.py:130-133 | `--run` with the default timer schedules the bot and a 15-second disconnect; `--timer 0 --run` schedules the bot only |

## Left out

- Telethon client calls (`add_event_handler`, `event.reply`, `get_me`, `iter_dialogs`, `run_until_disconnected`, `disconnect`, `TelegramClient`): network I/O through a foreign library. The dialogs that `iter_dialogs` yields are a parameter of `ListChats`.
- `add_event` and `send_plus`: regular-expression compilation with `IGNORECASE | DOTALL`, Telethon's chat, sender and pattern filter, and the reply `+`. These belong to the `re` module and Telethon. Because of this, a `None` pattern, which `re.compile` would reject, is carried through but never compiled.
- `asyncio`: `sleep`, `gather`, the 1-second reply delay and the disconnect timer are cooperative concurrency. The model stops at the list of coroutines handed to `gather`.
- Reading input: `dotenv_values` and `argparse` become an already-read `map<string, Option<string>>` and an `Args` record. The argparse default of `--timer` is kept as `DEFAULT_TIMER`.
- All printing and `stringify`. The clock `datetime.now()` is a parameter; only the `OverflowError` of the end-time print is modelled.
- `DEFAULT_GAME_PATTERN`: defined but never referenced by the code.
- IdList.ParseInt: accepts only an optional `-` followed by the ASCII digits `0`-`9`. Python's `int()` also accepts surrounding whitespace, a leading `+`, underscores between digits, and decimal digits of other scripts (`int('１００') == 100`, `int('١٢') == 12`); the model reports such segments as invalid.
- IdList.IntLiteralRoundTrip: holds for integers of any length. From Python 3.11 on, `int()` and `str()` raise `ValueError` on more than 4300 digits unless that limit is lifted; the model has no such limit, so `ParseInt` also accepts the longer literals.
- Dialogs.Lower: lower-cases only the ASCII letters `A`-`Z`. Python's `str.lower` also maps other Unicode letters, some to several characters.
