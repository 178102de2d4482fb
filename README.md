# homework_bot: poll, validate, notify

A Dafny model of the core of a Telegram bot, `homework.py`. The bot polls the
Practicum homework-status API and checks the JSON reply. It turns the most
recent homework entry into a Russian notification text, which it sends only
when that text differs from the last one sent. Any failure in a cycle is
reported as a message too.

- `wrappers.dfy`: `Option` and `Result`, standing in for Python's `None` and its exceptions.
- `pyjson.dfy`: a decoded JSON value (`dict`, `list`, `str`, `int`, `bool`, `None`). Also the bits of Python semantics the bot relies on when it handles such values:
  - `key in v`: a substring test on a `str`, membership on a `list`, a `TypeError` on a scalar;
  - `v[key]`;
  - hashing a value to look it up in a dict;
  - `str(v)` inside an f-string, including the decimal form of an `int`, with its round trip proved.
- `homework.dfy`:
  - the verdict table `HOMEWORK_STATUSES`;
  - the error kinds, together with the text `str(error)` gives for each;
  - the `from_date` rule and the status-code check of `get_api_answer`;
  - `check_response`, `parse_status` and `check_tokens`.
- `loop.dfy`:
  - one cycle of `main`'s try block, and the loop's state transition `Next`;
  - its fold `Run` over many cycles, with the lemmas about that fold;
  - the class `Bot`, which holds `STATUS`, `current_timestamp` and a ghost record `sent` of every message handed to Telegram. Its `Step`, `Poll` and `RunCycles` methods are proved against `Next` and `Run`. `Poll` runs one iteration from an HTTP reply. `RunCycles` runs many iterations from their outcomes.

The HTTP reply and the clock are inputs. A cycle receives a `Reply`:
- the request raised; or
- a status code and a body that did or did not decode as JSON.

It also receives the current time `now`.

Points where the code's behaviour is easy to misread:
- The watermark moves to the current time on every new notification, the first one included (homework.py:115-118).
- The texts are the Russian ones of the source: the notification `Изменился статус проверки работы "<name>". <verdict>` and the failure report `Сбой в работе программы: <error>`.
- A status code other than 200 executes `raise logger.error(...)`, which raises `None`. Python therefore raises `TypeError: exceptions must derive from BaseException`. That text is what the failure report carries, and the status code is lost (homework.py:62-64).
- A `KeyError` prints its message in quotes, so the three missing-key reports carry quoted texts: `homeworks` in `check_response`, and `homework_name` and `status` in `parse_status` (homework.py:73, 84, 86).
- An empty `homeworks` list fails through `IndexError` with the text `list index out of range`.
- A homework entry that is not a dict is not rejected up front. The `in` tests of `parse_status` behave as Python defines them on a list, a string or a scalar, and the subscript then fails. It is an error in every case, as `ParseStatus` states.

## Model

| member | source | states |
|---|---|---|
| `PyJson.Contains` | homework.py:83-86 | `key in v`: a dict key, a list element, or an occurrence of `key` at some position of a string. It fails exactly on int, bool and None. |
| `PyJson.HasSubstring` | homework.py:83-86 | `needle in hay` on strings is true exactly when `needle` occurs in `hay` at some position. |
| `PyJson.Message` | homework.py:83-89 | CPython's wording of its own `TypeError`s: the offending type's name, quoted, inside the fixed frame for a non-iterable, an unhashable or a non-subscriptable value. |
| `PyJson.GetItem` | homework.py:87-88 | `v[key]` succeeds exactly on a dict and yields that key's value. |
| `PyJson.IsKeyOf` | homework.py:89 | Looking a value up in the status table. It fails exactly on an unhashable list or dict, and is true exactly for a string that is a key. |
| `PyJson.NatToDecimal` | homework.py:92 | The decimal text of a natural number is non-empty and all digits, with no leading zero except for 0. |
| `PyJson.DecimalRoundTrip` | homework.py:92 | Reading back the decimal text of `n` gives `n`. |
| `PyJson.IntToDecimal` | homework.py:92 | `str(i)` starts with `-` exactly when `i < 0`, and the rest reads back as `|i|`. There is no leading zero: a text starting with `0` is `"0"`, and a negative number's first digit is not `0`. |
| `PyJson.Str` | homework.py:92 | f-string rendering of the name: a string is rendered as itself, an int as `IntToDecimal` of it, a bool as `True` or `False`, and None as `None`. The result is absent exactly for a list or a dict. |
| `Homework.ValidationErrorsDistinguishable` | homework.py:70-90 | The seven failures that `check_response` and `parse_status` raise themselves have pairwise different report texts, and equal failures have equal texts. Interpreter errors and `NameNotRenderable` are not covered. |
| `Homework.FromDate` | homework.py:59-60 | `from_date` is the watermark when it is non-zero and `now` when it is 0. It is 0 only if both are. |
| `Homework.ApiAnswer` | homework.py:61-65 | A payload is returned exactly when the status is 200 and the body decodes, and it is that body. Any other status is an `ApiStatus` error with that code. A failed request is a transport error. A 200 reply whose body does not decode is a `NotJson` error carrying the decoder's message. |
| `Homework.CheckResponse` | homework.py:68-77 | Staged checks with a distinct error for each, and the first failing check decides: not a dict, then no `homeworks`, then not a list, then an empty list. It succeeds exactly on a non-empty `homeworks` list and returns element 0, whatever that element is. |
| `Homework.Describe` | homework.py:70-90 | `str(error)` of each failure. A non-200 status gives the `TypeError` text of `raise None`, without the code. Request and decode failures give the library's own message. The three `KeyError`s are quoted. An interpreter error gives CPython's message. |
| `Homework.Notice` | homework.py:92 | The notification text is the fixed head, then the literal name, then the fixed glue `". `, then the verdict, with those lengths. |
| `Homework.ParseStatus` | homework.py:80-92 | A non-dict entry is an error. A missing `homework_name` is checked before a missing `status`. An unknown scalar status is `UnknownStatus`, and an unknown status of any kind is an error. It succeeds exactly for a known status and a printable name, and then the result is the notice built from that name and the status's verdict from `HOMEWORK_STATUSES`. |
| `Homework.NoticeDeterminesNameAndStatus` | homework.py:89-92 | Two notification texts are equal exactly when their homework names and statuses are equal. So a change of status is always a change of text. |
| `Homework.CheckTokens` | homework.py:95-99 | True exactly when both tokens are set. An empty string counts as set, and the chat id is not an input. |
| `Loop.Cycle` | homework.py:113-122 | The cycle's failure is the first error of `get_api_answer`, then `check_response`, then `parse_status`, described as `Describe` of that error. It composes a text exactly when all three succeed, and that text is the one `parse_status` returned, which starts with the notification head. |
| `Loop.ApprovedScenario` | homework.py:80-92 | The reply `{"homeworks": [{"homework_name": "hw1", "status": "approved"}]}` with status 200 composes the exact approved notification for `hw1`. |
| `Loop.UnavailableScenario` | homework.py:62-64 | A 503 reply fails with the `TypeError` text, whatever its body. |
| `Loop.Next` | homework.py:115-124 | A new text is sent once and becomes `STATUS`, and the watermark becomes `now`. A repeated text sends nothing and changes nothing. A failure sends exactly one `Сбой в работе программы: ` report and changes nothing. |
| `Loop.Run` | homework.py:111-125 | A finite number of iterations of the `while True` loop, each cycle applying `Next` to the state the previous ones left. A run of `n` cycles sends at most `n` messages. |
| `Loop.Requests` | homework.py:59-61 | The `from_date` of every request in a run, one per cycle. |
| `Loop.RequestAt` | homework.py:113 | Request `k` carries `FromDate` of the watermark left by the first `k` cycles and that cycle's clock reading. |
| `Loop.RunKeepsLastText` | homework.py:115-117 | After any run, `STATUS` is the text of the last cycle that composed one, or the initial status. If it changed, it was sent. |
| `Loop.RunWatermark` | homework.py:118 | The watermark after a run is either the initial one or the clock reading of a cycle that composed a text. |
| `Loop.RepeatedTextNotifiesOnce` | homework.py:115-120 | Cycles that all compose the same text send it at most once, on the first cycle and only if it differs from `STATUS`. The watermark is then the first cycle's time. In particular, two identical successful cycles notify once. |
| `Loop.FailuresOnlyReport` | homework.py:121-124 | A run of failing cycles sends each failure report once, in order, and leaves `STATUS` and the watermark unchanged. |
| `Loop.Bot.constructor` | homework.py:106-107 | The loop starts with `STATUS` empty, the watermark at 1635795445 and nothing sent. |
| `Loop.Bot.Step` | homework.py:115-124 | The new fields and the messages appended are those of `Next` on the old fields. |
| `Loop.Bot.Poll` | homework.py:111-124 | One iteration. The request carries `FromDate` of the old watermark, and the new state and messages are `Next` applied to the cycle's outcome. |
| `Loop.Bot.RunCycles` | homework.py:111-125 | The loop run for a finite sequence of cycle outcomes. The final state and messages are those of `Run`, and the `from_date` of each request is given by `Requests`. |

## Left out

- The HTTP request, the decoding of its body and the clock (homework.py:59-65) are inputs. The request and decode exceptions keep their library message as an opaque string.
- One clock reading `now` serves a cycle both as the `from_date` fallback and as the new watermark. The source calls `time.time()` separately at lines 59 and 118.
- Telegram delivery is not modelled (`Bot`, `Updater`, `send_message`, homework.py:45-54, 104-105). Sending appends to the ghost `sent` record. `send_message` swallows delivery failures, so they do not affect the loop.
- The command-handler registration and `start_polling` run on every iteration (homework.py:127-131). They are calls into the Telegram library and have no effect on the modelled state.
- `time.sleep(RETRY_TIME)` (homework.py:119, 125) is timing only.
- Logging is not modelled, including the assignments to `logger.info` and `logger.critical` (homework.py:52, 109), which replace those methods instead of calling them.
- Loading the environment and dotenv (homework.py:8-14) is not modelled. `CheckTokens` takes the two tokens as arguments.
- The startup abort at homework.py:108-110 is not modelled as a step. `CheckTokens` states the decision, and `Bot.constructor` is the state the loop starts in.
- The infinite `while True` is not modelled. `RunCycles` and `Run` cover any finite number of iterations.
- JSON floating-point numbers are not part of `Json`.
- Homework.ParseStatus: when `homework_name` is a list or a dict, Python embeds its `repr` in the text. The model reports `NameNotRenderable` instead. A dict's `repr` depends on its insertion order, which a map does not keep. A list's `repr` depends on Python's `repr` of each element, including its choice of quotes and its escapes, which is not modelled.
- PyJson.IntToDecimal: does not model CPython's limit of 4300 digits for `str(int)`.
- PyJson.Message: for a string or list subscripted by a string, the report uses CPython 3.10's wording. Later versions word it differently.
