# homework_bot, modelled in Dafny

homework_bot polls the Yandex Practicum homework-status API every ten minutes. It
relays every change in the review status of the latest homework to one Telegram chat.
This project models `homework.py`, the whole program:

- **Credential guard** (`check_tokens`): the three environment variables must be set and non-empty.
- **Request outcome** (`get_api_answer`): only status 200 and a parsable body give a value.
  This is the call as evidently intended, with the endpoint passed as the URL; the call as
  written always fails (see "## Findings"), and is modelled separately.
- **Response validator** (`check_response`): four checks in a fixed order.
- **Status translator** (`parse_status`): it uses the three-entry verdict table.
- **Loop body** (`main`): it holds two local variables. `timestamp` is the `from_date`
  cursor. `old_status` is the deduplication cell.

Modules, one file each:

- `wrappers.dfy`: `Option`, `Result` and `Outcome`.
- `pyjson.dfy`: the JSON values `response.json()` yields, and the parts of Python's `str()`
  and `repr()` that the messages use.
- `exceptions.dfy`: the exceptions of `exceptions.py`, the built-in exceptions the loop can
  catch, and `str(error)`.
- `homework.dfy`: the pure functions and the verdict table.
- `polling.dfy`: the loop.
  - `StepOn` is the specification of one iteration. It is split into `Observe` (the
    cursor and the candidate message an API result leads to) and `Advance` (the cursor
    update and the deduplicated send).
  - `Run` is the loop over a finite sequence of API results.
  - In the class `Bot`, the method `Iterate` runs the loop body step by step on the
    fields `timestamp` and `oldStatus`. It is proved equal to `StepOn`. The ghost fields
    `sent` and `delivered` record what was handed to `send_message`. Its request is the
    corrected `GetApiAnswer`; `AsWrittenNotifiesOnce` covers the loop with the request as
    written.

Behaviour the model follows from the code:

- The cursor takes whatever value `current_date` holds, of any JSON type. The
  `api_response.get('current_date', timestamp)` assignment runs before `check_response`,
  so a response that later fails validation still moves the cursor.
- A parsed answer that is not a dict never reaches `check_response`. That `.get` raises
  AttributeError first. So the loop never reports `check_response`'s
  "expected dict" TypeError.
- `get_api_answer` accepts exactly status 200, not every 2xx status.
- A malformed body raises its JSONDecodeError outside the `try` of `get_api_answer`. It
  is therefore not wrapped in UnexpectedStatusCodeError.
- `str()` of a KeyError is the `repr()` of its argument. The failure message for a
  missing key therefore quotes the text.

## Model

| member | source | states |
|---|---|---|
| Homework.CheckTokens | homework.py:32-39 | fails with TokenNotFound("Отсутствует токен.") exactly when one of PRACTICUM_TOKEN, TELEGRAM_CHAT_ID, TELEGRAM_TOKEN is unset or empty; passes otherwise |
| Homework.AllMeansEveryTruthy | homework.py:34-35 | Python's `all()` over the credentials holds exactly when every one is set and non-empty |
| Homework.GetApiAnswer | homework.py:52-72 | with the endpoint passed as `url`: a value comes back exactly for status 200 with a parsable body, and it is that body; any other status gives UnexpectedStatusCodeError with the fixed text; a RequestException is wrapped with its reason and the endpoint; a malformed body gives its JSONDecodeError |
| Homework.GetApiAnswerAsWritten | homework.py:54-64 | as written, the request always fails with a TypeError, whatever the server would answer |
| Homework.CheckResponse | homework.py:75-88 | the first failing check decides: not a dict gives TypeError; no "homeworks" gives EmptyResponseError; a non-list "homeworks" gives TypeError; an "error" key gives UnexpectedStatusCodeError; success exactly when all four pass, returning the "homeworks" list unchanged |
| Homework.CheckResponseErrorOnly | homework.py:79-87 | a response with "error" but no "homeworks" is EmptyResponseError, not UnexpectedStatusCodeError |
| Homework.CheckResponseIgnoresOtherKeys | homework.py:77-88 | keys other than "homeworks" and "error" never change the outcome |
| Homework.ParseStatus | homework.py:91-107 | a non-dict fails on the first lookup; a missing homework_name is a KeyError, checked first; then a missing status; then an unhashable status (list or dict) is TypeError "unhashable type: '<type>'"; then a status outside the table; success exactly for a documented status, with text `Изменился статус проверки работы "<name>". <verdict>` |
| Homework.AnnouncesOnlyItsStatus | homework.py:25-29 | a notification built from one documented status never reads as the notification of another documented status |
| Homework.NotificationRoundTrip | homework.py:106-107 | every notification decodes back to the homework name and the status it announces |
| Homework.ParseStatusRoundTrip | homework.py:93-107 | a message from parse_status decodes back to `str()` of the homework's name and to its status |
| Homework.ParseStatusInjective | homework.py:93-107 | two homeworks give the same message exactly when their names read alike and their statuses are equal |
| Polling.Caught | homework.py:130-139 | the handlers offer no message exactly for EmptyResponseError, and otherwise "Сбой в работе программы: " followed by `str()` of the exception |
| Polling.Candidate | homework.py:118-126 | the message the try block or a handler arrives at for one get_api_answer result; there is none exactly when the result is an EmptyResponseError or a dict without "homeworks" |
| Polling.Advance | homework.py:120-139 | the cursor becomes the observed current_date if any; a message is sent exactly when the candidate exists and differs from old_status, which then holds it; otherwise old_status is kept |
| Polling.StepOn | homework.py:118-139 | the new cursor, the new old_status and the message handed to send_message for one API result: any message sent is the candidate, differs from the old old_status and becomes the new one |
| Polling.Run | homework.py:117-141 | a finite stretch of the loop over a sequence of API results, sending at most one message per iteration |
| Polling.StepCursor | homework.py:119-121 | the cursor becomes the answer's current_date when present, even if validation then fails, and stays unchanged otherwise |
| Polling.StepDedup | homework.py:127-139 | a message is sent exactly when the iteration arrives at one that differs from old_status; old_status then holds it, and otherwise keeps its value |
| Polling.StepIdempotent | homework.py:117-139 | a second iteration on the same answer changes nothing and sends nothing |
| Polling.SameMessageSentOnce | homework.py:127-139 | two successive iterations that arrive at the same message send it at most once |
| Polling.EmptyResponseSilent | homework.py:130-133 | a response without "homeworks" sends nothing and leaves old_status unchanged |
| Polling.OnlyFirstHomeworkMatters | homework.py:122-124 | only homeworks[0] decides the message: parse_status's text, or the failure message for its exception |
| Polling.EmptyListMessage | homework.py:125-126 | an empty list yields "Нет новых статусов работы" |
| Polling.FailureMessage | homework.py:134-139 | every exception other than EmptyResponseError leads to "Сбой в работе программы: " followed by its text |
| Polling.MessageKindsDiffer | homework.py:122-139 | status notifications, the "no new statuses" message and failure messages never coincide |
| Polling.StatusChangeSent | homework.py:122-129 | when the first homework's status or name changes, the new notification is always sent |
| Polling.RunNoRepeats | homework.py:117-141 | over any finite run, no message is sent twice in a row, and old_status ends as the last message sent |
| Polling.RunCursor | homework.py:117-121 | after any finite run the cursor is the latest current_date seen, or the starting cursor if no answer carried one |
| Polling.RunRepeatedSentOnce | homework.py:117-141 | the same answer, however often it comes back, sends exactly what the first iteration on it sends: at most one message |
| Polling.AsWrittenNotifiesOnce | homework.py:54-70 | with the request as written, any run sends exactly one failure message and the cursor stays 0 |
| Polling.ApprovedScenario | homework.py:117-139 | an approved "hw1" with current_date 100 is announced once over three iterations, the cursor becomes 100 |
| Polling.ErrorOnlyScenario | homework.py:119-133 | `{"error": "some error"}` leaves cursor and old_status unchanged and sends nothing |
| Polling.MissingNameScenario | homework.py:93-139 | a homework without homework_name is reported as a failure carrying the repr of the KeyError's text, and held back exactly when that report was already the last message |
| Polling.KeyErrorQuotesText | homework.py:134-135 | a KeyError text free of backslashes, line breaks, tabs and the chosen quote reaches the chat verbatim between two quotes |
| Polling.Examine | homework.py:118-139 | the try block and its handlers compute exactly the cursor and candidate message of the specification |
| Polling.Bot.Iterate | homework.py:117-141 | one pass of the loop body leaves the state and the sent message of the specification step, and keeps the invariant that no message repeats and old_status is the last sent |
| Polling.Bot.SendMessage | homework.py:42-49 | the message joins the history of messages handed to Telegram, with whether delivery succeeded; a failed delivery raises nothing |
| Polling.Bot.constructor | homework.py:114-115 | the loop starts with cursor 0, no old status and nothing sent |
| Polling.Launch | homework.py:112-115 | the bot starts exactly when check_tokens passes, and then in the initial state |

## Left out

- The HTTP request itself is left out (network I/O). Its outcome is an input: a status
  code with a body that parses or not, or a RequestException with its text.
- The Telegram transport is left out (a foreign library). Delivery is a flag per message.
  Only TelegramError is modelled as swallowed. Other exceptions from `bot.send_message`
  are not modelled.
- The endless `while True` loop and `time.sleep(RETRY_PERIOD)` are left out (blocking
  time, no end). They are modelled as a single iteration and as finite runs.
  `RetryPeriod` is only a constant.
- Logging, `load_dotenv`, `os.getenv` and `logging.basicConfig` are left out
  (configuration and output side channels). The tokens are parameters.
- Polling.Launch: `telegram.Bot(token=TELEGRAM_TOKEN)` can itself raise (InvalidToken for a
  badly formed token). The constructor of the Telegram library is not part of this model, so
  Launch starts the bot whenever check_tokens passes.
- JSON numbers are modelled as integers only. Floats are not modelled.
- PyJson.PyStr renders a non-empty list or dict as `[...]` or `{...}`, not as Python's
  full repr. This matters only for a homework_name or status of that type.
- PyJson.PyRepr escapes only backslash, the chosen quote, `\n`, `\r` and `\t`. Python
  also escapes other non-printable characters.
- Homework.NotSubscriptableText uses the CPython 3.9–3.10 wording of the TypeError for
  subscripting a non-dict homework.
- Polling.ApprovedScenario states the expected text through the constants
  `NotificationPrefix`, `NotificationSeparator` and `ApprovedVerdict`, not as one literal.
  Proving equality with a long literal is beyond the verifier's budget.
- Polling.MissingNameScenario states the quoted text as `PyRepr(NoNameText)`, not as a
  literal, for the same reason.

## Findings

| source | as written | input that shows it | evidently intended | confidence | as-written member | corrected member |
|---|---|---|---|---|---|---|
| homework.py:54-64 | `requests.get(**request_info)` passes the URL under the keyword `endpoint` | any call, e.g. `get_api_answer(0)`: `requests.get(url, params=None, **kwargs)` gets no `url` and raises TypeError "get() missing 1 required positional argument: 'url'". That is not a RequestException, so it escapes to `main`. The chat gets one failure message, later ones are suppressed, and the API is never reached. | `requests.get(ENDPOINT, params=..., headers=...)` | high; not executed (rests on the signature of `requests.get`, which is not part of this model) | Polling.AsWrittenNotifiesOnce | Homework.GetApiAnswer |
