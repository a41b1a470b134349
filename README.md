# homework_bot, modelled in Dafny

A model of the core of a polling bot that asks a homework-review API for status
changes and forwards them to a Telegram chat (`homework.py`). It covers the
credential check, the response validator, the status extractor with its fixed
verdict table, and one pass of the polling loop. The pass is a state machine over
the poll cursor `timestamp` and the last reported failure `error_message`.

- `exceptions.dfy` (module `Exceptions`): the bot's two exception classes
  (`EndpointStatusError` and `NotCriticalError`, exceptions.py:1-10). They are
  variants of one `Error` datatype, together with the built-in `TypeError`,
  `KeyError` and `IndexError` that the core raises. It also holds `Result` and
  `str(error)` as the failure text renders it.
- `json.dfy` (module `Json`): decoded JSON values. It also holds the Python
  operations the core applies to them: truthiness, `in` (a key of a dict, an
  element of a list, a substring of a str, a TypeError otherwise), `[]` with a
  string key, `dict.get` and `str()`.
- `homework.dfy` (module `Homework`): `HOMEWORK_VERDICTS`, `check_tokens`,
  `check_response` and `parse_status`, as pure functions.
- `main_loop.dfy` (module `MainLoop`): one pass of `main`'s loop.
  - `TryBody` is the `try` block.
  - `Cycle` is the whole pass, as a function of the old state.
  - The class `Poller` holds the two loop variables. Its `Step` method runs the
    pass statement by statement and is proved to agree with `Cycle`.
  - `Launch` is the start-up check that precedes the loop.

The model follows the code, including these behaviours a reader may not expect:
- `NotCriticalError` is documented in exceptions.py:2 as an error that need not
  be reported to Telegram, yet the loop reports it like any other failure:
  twice on its first occurrence (`FalsyHomeworkReported`).
- An empty `homeworks` list never raises `NotCriticalError`. The unguarded
  `[0]` in `check_response` raises `IndexError` before the cursor update, so
  the cursor stays and `Сбой в работе программы: list index out of range` is
  sent (`EmptyHomeworksPass`). `NotCriticalError` is raised only when the first
  homework is falsy (`{}`, `null`, `""`, `0`, `false`, `[]`).
- Repeated failures are suppressed by substring containment (`message not in
  error_message`), not by equality. A different failure whose text is a prefix
  of the recorded one is never reported (`ShorterFailureSuppressed`).
- `check_tokens` returns `None`, not `False`, when a credential is missing.
- `current_date` is copied into the cursor whatever JSON value it holds, so
  the cursor is modelled as a JSON value.
- A suppressed failure leaves `error_message` as it was, but the cursor can
  already have advanced in that pass (for example when `parse_status` fails).
- `error_message` is never cleared after a successful pass.

## Model

| member | source | states |
|---|---|---|
| `Json.In` | homework.py:94-97 | Python's `key in x`: key membership for a dict, element membership for a list, substring occurrence for a str, and `TypeError` "argument of type ... is not iterable" for None, bool and int |
| `Json.GetItem` | homework.py:98-99 | `x[key]`: the value for a dict that holds the key, `KeyError` for one that does not, and for a non-dict the exact `TypeError` Python raises: string indices, list indices, or not subscriptable |
| `Json.Truthy` | homework.py:119 | a value is falsy exactly when it is `None`, `False`, `0`, `""`, `[]` or `{}` |
| `Json.Get` | homework.py:118 | `dict.get(key, default)` gives the key's value when present and the default otherwise |
| `Json.NatToDecimal` | homework.py:103 | `str(n)` for a natural number is a non-empty string of decimal digits, without leading zeros, that denotes `n` |
| `Json.Str` | homework.py:103 | the f-string renders a str unchanged, `None` as `None`, booleans as `True`/`False`, and an int as its decimal digits without leading zeros (`0` as `0`), after `-` when negative |
| `Exceptions.Describe` | homework.py:125 | `str(error)` for a `KeyError` is its argument between single quotes; for every other kind it is the argument unchanged |
| `Json.ContainsIffOccurs` | homework.py:126 | the `in` test on two strings holds exactly when the needle occurs at some index of the haystack |
| `Homework.CheckTokens` | homework.py:42-45 | the result is `True` or `None`, and it is truthy exactly when all three credentials are set and non-empty |
| `Homework.CheckResponse` | homework.py:77-89 | the first violated check decides the error: not a dict gives `TypeError`, no `homeworks` gives `KeyError`, a non-list `homeworks` gives `TypeError`, no `current_date` gives `KeyError`; an empty list gives `IndexError`; it succeeds exactly on a well-shaped response with some homework, and returns the first homework unchanged |
| `Homework.IsKnownStatus` | homework.py:100 | `status in HOMEWORK_VERDICTS` raises `TypeError` exactly for an unhashable list or dict, and otherwise holds exactly for the strings `approved`, `reviewing` and `rejected` |
| `Homework.ParseStatus` | homework.py:92-103 | it succeeds exactly on a dict with `homework_name` and a `status` among the three verdict keys, and returns `Изменился статус проверки работы "<name>": <verdict>`; on a dict a missing name, then a missing status, then an unknown status each give their own `KeyError`, and an unhashable status its `TypeError`; on None, a bool or an int the `TypeError` of `in`; on a str or list the `KeyError` of a failed `in`, else the `TypeError` of the subscript; every failure is a `KeyError` or a `TypeError` |
| `Homework.Notification` | homework.py:103 | the notification is the fixed opening `Изменился статус проверки работы "`, then the name, then `": `, with the verdict unaltered as its tail |
| `Homework.VerdictsDistinct` | homework.py:35-39 | the three verdict sentences are pairwise different |
| `Homework.DistinctStatusesDistinctNotifications` | homework.py:98-103 | for the same homework name, two different valid statuses yield two different notifications |
| `Homework.ParseStatusReadsNameAndStatus` | homework.py:94-103 | two dicts that agree on `homework_name` and `status` get the same result |
| `MainLoop.FailureText` | homework.py:125 | the failure text is the fixed opening `Сбой в работе программы: ` followed by `str(error)` |
| `MainLoop.TryBody` | homework.py:116-123 | a failed fetch or a rejected response leaves the cursor unchanged and ends in that error; an accepted response moves the cursor to its `current_date`; a falsy first homework ends in `NotCriticalError`, and a truthy one ends in `parse_status`'s result |
| `MainLoop.Cycle` | homework.py:114-130 | a status text is sent exactly once and `error_message` is kept; a failure text contained in `error_message` is not sent and `error_message` is kept; any other failure text is sent twice and becomes `error_message` only if the second send succeeded |
| `MainLoop.Poller.constructor` | homework.py:112-113 | the cursor starts at the current time and `error_message` starts empty |
| `MainLoop.Poller.Step` | homework.py:115-130 | the statement-by-statement pass leaves the fields and sends exactly what `Cycle` gives for the old fields, and keeps `error_message` empty or a text opening with the failure prefix |
| `MainLoop.Launch` | homework.py:106-113 | the bot stops before the loop exactly when `check_tokens()` is falsy; otherwise it polls from `now` with no failure recorded |
| `MainLoop.SentShapes` | homework.py:119-129 | a pass sends nothing, one text, or one failure text twice |
| `MainLoop.RepeatedFailureSuppressed` | homework.py:124-129 | once a failure text is recorded, the same failure in the next pass sends nothing and keeps `error_message` |
| `MainLoop.ShorterFailureSuppressed` | homework.py:125-126 | when the recorded failure text extends a different failure's text, that failure is not sent and `error_message` stays, because the test is containment and not equality |
| `MainLoop.CycleKeepsValidErrorMessage` | homework.py:113-129 | `error_message` stays empty or a text opening with `Сбой в работе программы: ` across every pass |
| `MainLoop.FalsyHomeworkReported` | homework.py:119-129 | a first homework `{}` raises `NotCriticalError`; the cursor moves to `current_date` 5 and `Сбой в работе программы: Статус домашней работы не обновлен` is sent twice |
| `MainLoop.ErrorMessageChangesOnlyBySending` | homework.py:124-129 | `error_message` is never cleared: it only changes to a failure text that this pass sent twice and that the old text did not contain |
| `MainLoop.ApprovedHomeworkPass` | homework.py:116-123 | the response with one approved homework `hw1` and `current_date` 1000 sends its notification once and moves the cursor to 1000 |
| `MainLoop.FirstFetchFailurePass` | homework.py:116-129 | a first failed fetch is reported twice as `Сбой в работе программы: <detail>` |
| `MainLoop.EmptyHomeworksPass` | homework.py:89-129 | an empty homework list raises `IndexError` inside `check_response`, so the cursor stays and `list index out of range` is reported |

## Left out

- `get_api_answer` (homework.py:60-74) is not modelled: the HTTP request, the status-code check and the JSON decoding. Its result is the input `Fetch`, either a decoded body or an `EndpointStatusError` with its text.
- `send_message` (homework.py:48-57) is a foreign Telegram call. A pass returns the texts it sends, in order. Only the outcome the loop reads is an input: `delivered`, the result of the second failure send. Exceptions other than `TelegramError` escaping from it are not modelled.
- Logging, `.env` and environment loading, `telegram.Bot` construction and `time.sleep(RETRY_PERIOD)` are I/O. `time.time()` is the parameter `now`. `sys.exit` is `Launch` returning `null`.
- The endless `while True` is not modelled as such: the model is one pass and its effect on the state.
- JSON floats are not part of the JSON datatype. A dict is a `map`, so key order and duplicate keys are not modelled.
- Json.Str: a `homework_name` that is a list or a dict is rendered as a fixed placeholder, not as Python's `repr`. Strings, ints, booleans and `null` render as Python renders them.
- Homework.ParseStatus: for a list- or dict-valued `homework_name` the notification text uses that placeholder (see Json.Str).
- The texts of errors raised by the interpreter itself (`list index out of range`, `unhashable type: ...`, `string indices must be integers, not 'str'`) are worded as CPython 3.11 words them.
