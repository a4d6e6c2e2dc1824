# homework_bot — a Dafny model of the poll-check-notify loop

The bot polls the Practicum homework API every ten minutes. It checks the
shape of each answer and turns the status of the most recent homework into a
Telegram message. It reports failures to the same chat. A failure is not
reported again while it keeps repeating with the same text. This project
models the decision logic of `homework.py`, proves what it promises, and
leaves out the network, Telegram, the clock and the environment.

Modules, one per component of `homework.py`:

- `Outcomes` (`outcomes.dfy`): `Option` and `Result`. These stand in for
  Python's `None` returns and raised exceptions.
- `Json` (`json.dfy`): decoded JSON values. Also the parts of Python's data
  model the code relies on: `type(x)`, truthiness, `str(x)` and `in` on
  strings.
- `Errors` (`errors.dfy`): every failure one cycle can raise, and its exact
  `str(error)`. The loop compares that text to decide whether to report.
- `Api` (`api.dfy`): the status-code branching of `get_api_answer`, and
  `check_response`.
- `Status` (`status.dfy`): `HOMEWORK_VERDICTS` and `parse_status`.
- `Config` (`config.dfy`): `check_tokens`.
- `PollLoop` (`poll_loop.dfy`): the loop body of `main`, written two ways.
  - As functions: `TryCycle` is the `try` block; `RunCycle` is one whole
    iteration; `Run` is a finite run. The run lemmas are proved over these.
  - As a class: `Bot` holds the `timestamp` and `current_error` variables
    and a ghost log of the messages handed to the chat. `Bot.Step` is one
    pass of the loop body, proved equal to `RunCycle`.

Facts about the code that the model keeps:

- The cursor is whatever JSON value the answer held under `current_date`.
  `check_response` checks that the key is present but never checks its type,
  so the cursor need not be an integer.
- `str(KeyError(m))` is `m` in single quotes, so those failure texts carry
  the quotes.
- The text for an unexpected status code already starts with
  `Сбой в работе программы: `. The loop adds that prefix again, so the
  report carries it twice.
- `parse_status` uses Python's `in` and `[]` on whatever the API sent.
  - For a homework that is a list or a string, `in` tests element or
    substring membership. The subscript that follows then raises Python's
    own `TypeError`.
  - A status that is a list or a dict cannot be hashed, so looking it up in
    the verdict table raises `TypeError` as well.
- `current_error` starts as `''` and is never cleared on success. A failure
  that recurs after a success is therefore not reported again.
- `check_tokens` counts only `None` as missing. An empty string counts as
  present.
- The remembered failure is the string `''` before the first report, not an
  absent value.
- `send_message` returns nothing. A delivery failure is caught and logged,
  so the caller cannot tell it happened.

## Model

| member | source | states |
|---|---|---|
| `Json.TypeOf` | homework.py:78-89 | an answer or `homeworks` value is classed as `dict` exactly when it is an object and as `list` exactly when it is an array, as the two `isinstance` checks test |
| `Json.Str` | homework.py:112 | a homework name that is a string appears verbatim in the notification; an integer appears in decimal |
| `Json.IntToDecimalInjective` | homework.py:71 | two different status codes are never written the same way |
| `Errors.KeyErrorText` | homework.py:83-84 | `str` of a `KeyError` is its message wrapped in single quotes: a quote, exactly the message, a quote |
| `Errors.ErrorTextNonEmpty` | homework.py:129-134 | no failure has an empty text, so a failure never matches the initial `''` and is never silently dropped at start-up |
| `Errors.UnexpectedStatusNamesCode` | homework.py:68-72 | the error for a status code other than 200, 400 and 401 contains that code in decimal |
| `Errors.UnexpectedStatusTextsDistinct` | homework.py:68-72 | different unexpected status codes give different error texts, so a change of code is reported |
| `Api.StatusCodeError` | homework.py:62-72 | only 200 lets the body through; 400 gives the `from_date` error; 401 gives the token error; every other code gives the unexpected-status error carrying that code |
| `Api.GetApiAnswer` | homework.py:55-73 | the result is the decoded body exactly when the request completed with 200; an unreachable endpoint gives the endpoint error; any other code gives the error its classification names |
| `Api.CheckResponse` | homework.py:76-96 | accepts exactly the well-formed answers. Failures come in a fixed order: not a dict, then no `homeworks`, then `homeworks` not a list, then no `current_date`. On success the result is None for an empty list and otherwise exactly the list's first element |
| `Api.CurrentDateTypeUnchecked` | homework.py:91-92 | replacing the value of `current_date` by any other JSON value never changes the result of `check_response` |
| `Api.LaterHomeworksIgnored` | homework.py:93-96 | homeworks after the first never change the result of `check_response` |
| `Status.ParseStatus` | homework.py:99-112 | succeeds exactly for an object with `homework_name` and a documented `status`. A missing name is reported before a missing status. A scalar status outside the table gives the undocumented-status error. Lists and strings give Python's own errors. A list or dict status gives the unhashable-type error. `None`, a boolean or an integer homework gives the not-iterable error. The text is the fixed lead, the quoted name, then the verdict |
| `Status.VerdictEnding` | homework.py:23-27 | a text ending in one status's verdict ends in no other status's verdict |
| `Status.NoticeRoundTrip` | homework.py:107-112 | every notification contains the homework name and ends with exactly its status's verdict; reading the status back from the text gives the status |
| `Status.StatusesGiveDistinctNotices` | homework.py:23-27 | two homeworks with different statuses never get the same notification |
| `Config.Absent` | homework.py:37-38 | a setting counts as missing exactly when it is `None` |
| `Config.CheckTokens` | homework.py:30-43 | the count is the number of absent settings among the three, and the bot stops exactly when at least one is absent |
| `PollLoop.TryCycle` | homework.py:122-128 | the `try` block succeeds exactly when the answer is a 200 with a well-formed body whose head homework, if truthy, is documented. On success the cursor is the answer's `current_date`. A status notification is produced exactly for a truthy head, so an empty list, an empty dict or another falsy homework sends nothing. On failure the error is that of the first failing stage: the request, then `check_response`, then `parse_status` of a truthy head |
| `PollLoop.RunCycle` | homework.py:122-134 | on success the cursor moves and the remembered failure is kept. On failure the cursor stays and the failure text is remembered. The failure is reported, with its prefix, exactly when its text differs from the one remembered before |
| `PollLoop.Run` | homework.py:121-135 | at most one message per iteration. At the end the remembered failure is either the starting one or a text that was reported during the run |
| `PollLoop.RepeatedFailureReportedOnce` | homework.py:129-134 | any number of consecutive failures with the same text send one report, or none if that text was already remembered, and never move the cursor |
| `PollLoop.FailuresKeepCursor` | homework.py:123-128 | a run in which every iteration fails leaves the cursor where it was |
| `PollLoop.FirstFailureReported` | homework.py:119-134 | from the start state every failure is reported |
| `PollLoop.DistinctFailuresBothReported` | homework.py:129-134 | two consecutive failures with different texts are both reported, except that the first is not if it is the failure already remembered |
| `PollLoop.SuccessKeepsSuppression` | homework.py:122-134 | a failure, then a success, then the same failure: the third iteration sends nothing |
| `PollLoop.RunSnoc` | homework.py:121-135 | running one more iteration after a run continues from the run's final state |
| `PollLoop.RunSnocSent` | homework.py:121-135 | the messages of a run followed by one more iteration are the run's messages then that iteration's |
| `PollLoop.CursorIsLastSuccess` | homework.py:123-128 | after any run the cursor is the `current_date` of the last successful iteration, or the starting cursor if none succeeded |
| `PollLoop.NoNewHomeworkScenario` | homework.py:93-96 | an empty homework list with `current_date` 1000 sends nothing and moves the cursor to 1000 |
| `PollLoop.ApprovedHomeworkScenario` | homework.py:124-128 | an approved homework `hw1` sends one notification with its name and the approved verdict, and moves the cursor |
| `PollLoop.UndocumentedStatusScenario` | homework.py:107-110 | status `weird` from the start state: one failure report, and the cursor stays at 0 |
| `PollLoop.RepeatedUnauthorizedScenario` | homework.py:64-67 | two 401 answers in a row from the start state send exactly one report |
| `PollLoop.Bot.constructor` | homework.py:119-120 | the loop starts with cursor 0, no remembered failure and nothing sent |
| `PollLoop.Bot.SendMessage` | homework.py:46-52 | a message is handed to the chat and logged whether or not delivery succeeds; nothing else changes |
| `PollLoop.Bot.Step` | homework.py:122-134 | the new cursor and remembered failure are those `RunCycle` gives. The log grows by exactly the message `RunCycle` sends. The delivery outcome affects neither |
| `PollLoop.Bot.RunSteps` | homework.py:121-135 | running the loop body once per outcome leaves the state `Run` gives, and the texts handed to the chat are exactly the messages of `Run`, in order, whatever the deliveries |

## Left out

- The HTTP request (`requests.get`) is a parameter. Each iteration receives
  its outcome: unreachable, or a status code with a decoded JSON body. A 200
  answer whose body is not JSON is not modelled.
- `telegram.Bot` and its `send_message` are replaced by a delivery flag and
  a ghost log of attempted messages. Exceptions outside `Exception`, such as
  a keyboard interrupt, are not modelled.
- `time.sleep` and the endless `while True` are left out. The model covers
  one iteration (`RunCycle`, `Bot.Step`) and finite runs (`Run`,
  `Bot.RunSteps`).
- `load_dotenv`, `os.getenv` and `sys.exit` are left out. `check_tokens`
  takes the three settings as arguments and returns the stop decision as a
  boolean.
- Logging is left out. It is a side channel; the texts the loop compares
  do not depend on it.
- `exceptions.APIAnswerException` is not part of this model. It is assumed
  to render as its message, as any plain `Exception` does.
- JSON numbers with a fractional part (Python floats) are not modelled.
- Json.Str: a homework name that is a list or an object is rendered as
  `[...]` or `{...}`, not as Python's repr. The object model is a map and
  does not keep key order.
- Errors: the wording of Python's own `TypeError` messages is interpreter
  text. The model uses the wording of CPython 3.11.
- Errors.ErrorText is proved injective only among unexpected status codes.
  That different kinds of failure never share a text is not proved.
- Determinism of `parse_status` is not stated as a lemma. It holds because
  `ParseStatus` is a function.
