# homework_bot — a Dafny model of its decision logic

The bot polls the Yandex.Practicum homework-status API and forwards status
changes to a Telegram chat. Everything it decides lives in `homework.py`:

- the start-up check of its three environment settings (`check_tokens`);
- the check of the HTTP answer (`get_api_answer`);
- the validator of the decoded response (`check_response`);
- the formatter that turns the newest homework record into a message,
  through the fixed three-entry verdict table (`parse_status`,
  `HOMEWORK_STATUSES`);
- one pass of the `while True` loop in `main`. Its state is the cursor
  `current_timestamp` and the suppression flag `error_msg_sent`. A pass picks
  the message to send, if any.

The model has six modules, one file each:

- `wrappers.dfy` (`Wrappers`): `Option` and a `Result` usable with `:-`.
- `json.dfy` (`Json`): `JValue`, the Python value `json()` returns. It also
  holds the two built-ins the bot applies to such values: the type name that
  appears in CPython's error texts, and `str(v)`, which an f-string inserts.
  `Contains` is Python's `in` on two strings.
- `errors.dfy` (`Errors`): one constructor per exception the bot raises or
  meets, and `ErrorText`, which is `str(error)`. The failure notice quotes that
  text.
- `homework.py`'s pure functions are in `homework.dfy` (`Homework`) and
  `tokens.dfy` (`Tokens`).
- `bot.dfy` (`Bot`): the loop, modelled twice.
  - As pure functions: `Next` is one pass and `Run` a finite prefix of the
    loop. The lemmas about the cursor, the flag and the notices are stated
    over these.
  - As the class `Notifier`, which holds the two loop variables as fields and
    sent messages in a ghost log. `Step` is one pass, updating the fields in
    place. `Poll` is a loop over a finite sequence of passes. Both are proved
    against `Next` and `Run`.

A pass receives a `Tick`: the outcome of the fetch and the clock reading
`int(time.time())`. The fetch outcome is either `Raised(text)`, meaning
`requests.get` or `.json()` raised, or `Answered(code, body)`. `Observe`
reduces a tick to a `Pass`: whether the fetch returned, what the `try` block
came to, and the clock reading.

Some of the code's behaviour is easy to misremember. The model follows the
code in each of these points:

- `check_response` does not return the whole list. It raises "no new status"
  on an empty list and otherwise returns only `homeworks[0]`.
- `check_tokens` tests for `None` only, so an empty value passes.
- The missing-key error of `parse_status` names no keys.
- The messages are the Russian ones of the code.

## Model

| member | source | states |
|---|---|---|
| Json.NatToString | homework.py:80 | the decimal text of a natural number is a non-empty run of digits without a leading zero that reads back as the number |
| Json.DecimalUnique | homework.py:80 | two decimal numerals without leading zeros that denote the same number are the same text |
| Json.NatToStringUnique | homework.py:80 | `str(n)` is the only decimal numeral without leading zeros that denotes `n` |
| Json.IntToString | homework.py:80 | the f-string's text of a status code is `str(code)` of its absolute value, after `-` exactly for a negative code, and reads back as the code |
| Json.PyStr | homework.py:127 | the f-string inserts a string name unchanged, writes `None`, `True` and `False` for those values, and writes an integer as `str` of it, which reads back as it |
| Json.Contains | homework.py:113 | `in` on two strings holds whenever the pattern is a prefix, and only when the pattern is no longer than the text |
| Json.ContainsAt | homework.py:113 | `in` on a string, as the key test works on a string record, holds exactly when the key occurs in it as a substring |
| Errors.ErrorText | homework.py:164-165 | `str` of a KeyError is its message in single quotes; `str` of the unavailable-endpoint error is the endpoint sentence followed by `str` of the status code; each of the bot's own exceptions is its message, and the message-less "no new status" exception is empty; TypeError, AttributeError and request errors are their own text |
| Homework.GetApiAnswer | homework.py:66-82 | a fetch succeeds exactly when the server answered with status 200, and it then yields the decoded body; any other status is `EndpointUnavailable` with that code; a request that raised fails with that exception's text |
| Homework.CheckResponse | homework.py:85-108 | validation succeeds exactly when the body is a dict whose "homeworks" entry is a non-empty list, and it then returns that list's first element; every failure is one of the five exceptions it raises |
| Homework.CheckResponseOrder | homework.py:90-107 | the guards apply in order: non-dict gives TypeError, `{}` gives EmptyData (never KeyError), a dict without "homeworks" gives KeyError, a non-list value gives HomeworkType, an empty list gives NoNewStatus |
| Homework.CheckResponseOnlyLatest | homework.py:106-108 | two valid responses with the same first record validate to the same result: no other key and no later record is inspected |
| Homework.ParseStatus | homework.py:111-127 | formatting succeeds exactly on a dict with both keys whose status is a string in the verdict table, and the message is then `Изменился статус проверки работы "<name>". <verdict>` |
| Homework.ParseStatusErrors | homework.py:113-123 | on a dict, a missing "homework_name" or "status" gives KeyError; with both keys present and a hashable status outside the table it gives UnknownStatus |
| Homework.ApprovedProjectX | homework.py:30-34 | the approved record named "Project X" gives exactly `Изменился статус проверки работы "Project X". Работа проверена: ревьюеру всё понравилось. Ура!`, and status "archived" gives UnknownStatus |
| Homework.StatusMessageInjective | homework.py:125-127 | for a fixed name, two messages are equal exactly when their statuses are: the verdict is decided by the status alone and tells the three statuses apart |
| Tokens.MissingText | homework.py:40-59 | the critical line for a missing setting starts with `Отсутствует переменная окружения: `, names that setting's variable and ends with `. Программа принудительно остановлена.` |
| Tokens.CheckTokens | homework.py:37-63 | the check passes exactly when all three settings are present; a failed check reports one setting, and that setting is missing |
| Tokens.ReportsFirstMissing | homework.py:39-61 | the setting reported is the first missing one in the order PRACTICUM_TOKEN, TELEGRAM_TOKEN, TELEGRAM_CHAT_ID, and the one critical line logged is that setting's |
| Tokens.EmptyValuesPass | homework.py:39-55 | the test is on absence only: three empty values pass |
| Bot.FailureNotice | homework.py:165 | a failure notice is `Сбой в работе программы: ` followed by `str` of the error |
| Bot.Evaluate | homework.py:152-156 | the `try` block succeeds exactly when the answer is a 200 whose body has a non-empty "homeworks" list whose first record formats, and its message is that record's |
| Bot.QuietExactly | homework.py:153-162 | a pass ends in the "no new status" handler exactly when the answer is a 200 with an empty "homeworks" list |
| Bot.ParseStatusNeverQuiet | homework.py:111-127 | formatting never raises the "no new status" exception, so only an empty list is quiet |
| Bot.Observe | homework.py:153-154 | a pass counts as fetched exactly when `get_api_answer` returned; when it did not, the pass's outcome is the fetch's own error |
| Bot.Next | homework.py:152-175 | one pass: the cursor becomes the clock reading exactly when the fetch returned; afterwards the flag is set exactly when the pass failed; a changed status sends its message; a failure sends `Сбой в работе программы: <error>` only when the flag was clear |
| Bot.Run | homework.py:151-175 | a run of no passes sends nothing and keeps the state; a run sends at most one message per pass |
| Bot.RequestedIsCursor | homework.py:151-154 | the `from_date` of pass j is the cursor left by the j passes before it |
| Bot.RetrySameWindow | homework.py:151-154 | a pass whose fetch did not return is retried with the same `from_date`; after one that returned, the next request asks from that pass's clock reading; so each request asks from the last earlier fetch that returned |
| Bot.RunCursor | homework.py:153-154 | after any number of passes the cursor is the clock reading of the last pass whose fetch returned, or its start value if none did |
| Bot.CursorStaysWithoutFetch | homework.py:153-154 | passes whose fetch raised or answered with a status other than 200 (the raise at lines 76-81) leave the cursor unchanged, because the raise skips the update at line 154 |
| Bot.RunFlag | homework.py:158-173 | after a run the flag is set exactly when the run's last pass failed |
| Bot.FailuresNotifyOnce | homework.py:164-170 | k ≥ 1 consecutive failures send exactly one notice, the first failure's, if the flag was clear, and none if it was set; the flag stays set |
| Bot.RecoveryRearmsNotice | homework.py:158-173 | a quiet or successful pass clears the flag, so the next failure sends a fresh notice |
| Bot.NoticeCount | homework.py:151-175 | over any run, the number of messages sent is the number of changed statuses plus the number of failure onsets (failures not directly after a failure); quiet passes send nothing |
| Bot.FetchVersusValidation | homework.py:153-155 | a non-200 answer fails with EndpointUnavailable and keeps the cursor; a 200 whose body lacks "homeworks" fails with KeyError but moves the cursor to the clock reading and sets the flag |
| Bot.Startup | homework.py:142-149 | the loop starts, with cursor 0 and a clear flag, exactly when all three settings are present, and `main` raises NoToken otherwise |
| Bot.Notifier.constructor | homework.py:148-149 | the loop variables start at cursor 0 with the flag clear, and nothing has been sent or requested |
| Bot.Notifier.Step | homework.py:152-175 | one pass requests with the cursor as `from_date`, updates the cursor and flag in place exactly as `Next` does, and appends the message it sends, if any, to the log |
| Bot.Notifier.Poll | homework.py:151-175 | running the loop body over a sequence of ticks leaves the state, the log and the requested dates as `Run` and `Requested` give them |

## Left out

- HTTP, JSON decoding and Telegram are not modelled: `requests.get`, `.json()`, `telegram.Bot` and `bot.send_message`. A fetch is an abstract outcome, and a send is an append to the ghost log `sent`. The request's `from_date` parameter is recorded in the ghost log `requested`; the URL and the `Authorization` header are not.
- Bot.Startup: `telegram.Bot(token=TELEGRAM_TOKEN)` (homework.py:147) is taken to succeed for every token that passed the check, the empty one included. Whether the library accepts a token is outside the model.
- `send_message` swallows delivery errors, so the log records every message the loop attempts to send, delivered or not. The flag is set regardless of delivery.
- Configuration and logging are not modelled: `load_dotenv`, `os.getenv` and every `logging` call. The settings are parameters of `Tokens.CheckTokens` and `Bot.Startup`. The critical line `check_tokens` logs is kept as `Tokens.TokenReport.Logged`, the `MissingText` of the reported setting; `Tokens.ReportsFirstMissing` states it.
- The clock and sleeping are outside the model. `time.time()` is the `now` of each tick, and `time.sleep(RETRY_TIME)`, 600 seconds after every pass, has no effect on the state.
- `homework.py` imports `from time import time`, so `time.time()` and `time.sleep(...)` would raise AttributeError when run. The model gives the intended behaviour: the cursor becomes the clock reading, and the loop goes on.
- The `while True` loop never ends. `Bot.Notifier.Poll` and `Bot.Run` cover any finite prefix of it.
- `exceptions.py` is not part of this model. Each custom exception is taken to be a plain `Exception` subclass whose `str` is its message.
- `str(KeyError(m))` is taken to be `m` between single quotes. That is its repr for the two messages the bot uses.
- The texts of the TypeError and AttributeError that CPython raises on non-dict records are written out as CPython words them.
- Exceptions outside `Exception`, such as KeyboardInterrupt, would end the loop. They are not modelled.
- JSON numbers are integers only. A float would be a Python `float`, which is not modelled.
- Json.PyStr: is exact for a string, None, a boolean or an integer. It renders a list or dict `homework_name` as a fixed marker. The repr of a list, which quotes and escapes each item, is not modelled, and a Dafny map keeps no insertion order for the repr of a dict.
