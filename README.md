# Payment reminder bot: sessions, amount parsing and reminder jobs

This project models the in-memory core of a Telegram payment-reminder bot
(`bot.py`). A user starts with `/start` and picks either the fixed plan
("pay 50 roubles") or "own amount", after which they type an amount such as
`1000`, `1к`, `500р` or `1 000 руб`. The bot keeps one session per user in the
global dictionary `user_data` (`waiting_for_amount`, `amount`, `period`),
computes the number of months an amount pays for (`amount // 50`), and adds a
recurring reminder job to the scheduler that fires every `period * 4` weeks.

The project has five modules:

- `Text` (Text.dfy): lower-casing, `str.replace`, the ASCII digit test and
  `int` of a digit string, with the lemmas about replacement the parser needs.
- `AmountParser` (AmountParser.dfy): the normalisation and parsing of a typed
  amount, and what it accepts and rejects.
- `Billing` (Billing.dfy): the month price and the floor-division period.
- `Handlers` (Handlers.dfy): the state (`user_data` plus the job list) as a
  value. Each handler is a function from the old state to the new one, and the
  lemmas state what every handler and every sequence of events does.
- `Bot` (PaymentBot.dfy): the class `PaymentBot`. Its fields `userData: map`
  and `jobs: seq` are overwritten and appended to in place by the handler
  methods. Each method is proved equal to the matching `Handlers` function,
  and each handler method is proved to keep the state invariant when events
  are handled one at a time. The helper `ScheduleReminder` alone does not
  keep it: on a session with period 0 (`/start` or "own amount") it arms a
  job with `weeks=0`, which the scheduler turns into an interval of one
  second, reminding the user to pay 0 roubles every second. The two arming
  handlers write a period of at least 1 before they call it, but they await
  their replies in between, so another handler can overwrite the session
  first (`Handlers.InterleavedPressArmsEmptyJob`).

Behaviour of the code that the model keeps:

- Reminder jobs are recurring interval jobs and nothing ever cancels them.
  Pressing the fixed-price button twice, or paying again after `/start`,
  leaves several live jobs for one user (`Handlers.RepeatedPayDuplicates`,
  `Handlers.StartKeepsJob`).
- An amount below one month's price is answered and then the handler returns
  before touching the session, so `waiting_for_amount` stays true and the
  user can type another amount at once (`Handlers.InsufficientKeepsWaiting`).
- The two handlers that arm a job write the session, then reply, then arm,
  so an exception while arming leaves the new session in place without a
  job.
- `add_job(..., "interval", weeks=period * 4)` raises `OverflowError` when the
  interval exceeds the 999,999,999 days a `timedelta` holds, or when the
  current date plus the interval passes 9999-12-31 (the first fire time is
  computed when the job is added). With a current date in the 2020s an
  amount of about 5.2 million roubles already reaches year 9999, and from
  1,785,714,300 roubles on the `timedelta` itself overflows, so `2ккк` is
  stored and answered but never armed (`Handlers.HugeAmountUnarmed`).
- `int` refuses a digit string of more than 4300 digits with `ValueError`:
  the handler then ends without a reply and without changing anything.

Assumptions of the model:

- `str.isdigit` is taken over ASCII `0`..`9` only.
- `str.lower` is modelled for ASCII `A`..`Z` and the Cyrillic capitals
  U+0400..U+042F. Every other character is left unchanged. This covers `К`,
  `Р`, `У` and `Б`, the only capitals whose lower case the parser looks for.
- The interpreter is a CPython with the default 4300-digit limit on `int`
  of a string (3.11 and later, and the 3.7 to 3.10 security releases that
  added it). Below that limit the conversion is exact and
  unbounded, and so are `nat` and `int` here.
- The clock is a parameter: the two handlers that arm a job take the current
  date `today` as a proleptic Gregorian day number (`date.toordinal()`).
  Because the interval is a whole number of days, the time of day does not
  affect whether the first fire time overflows, up to the local UTC offset
  on the last day: the job store converts the fire time to UTC, so west of
  UTC a fire time late on 9999-12-31 also overflows.

## Model

| member | source | states |
|---|---|---|
| Text.LowerChar | bot.py:117 | lower-casing maps `К`, `Р`, `У`, `Б` to `к`, `р`, `у`, `б` and every Latin and Cyrillic capital to lower case, leaves every other character as it is, never yields a capital, and keeps digits digits |
| Text.LowerCapitals | bot.py:117 | the lowered text holds no capital, and a text without capitals (such as a digit string) comes back unchanged, so lowering is idempotent |
| Text.ReplaceAll | bot.py:117-120 | after `str.replace` of a one-character pattern by text without it, no occurrence of that character is left |
| Text.ReplaceKeeps | bot.py:117 | `str.replace` keeps a character that appears in neither the pattern nor the replacement, and introduces no new one |
| Text.ReplaceCharAppend | bot.py:117 | replacing a single character distributes over concatenation |
| Text.ReplaceSkipsPrefix | bot.py:117-120 | a prefix free of the pattern's first character passes through `str.replace` unchanged |
| Text.Decimal | bot.py:122 | the decimal spelling of every number passes the `isdigit` check |
| Text.ValueOfDecimal | bot.py:126 | `int` of the decimal spelling of any number gives that number back |
| Text.DecimalOfValue | bot.py:122-126 | a digit string accepted by `isdigit` without a leading zero is exactly the spelling of the number `int` makes of it |
| Text.ValueTimesThousand | bot.py:119-120 | appending `000` to a digit string multiplies its value by 1000 |
| AmountParser.Normalise | bot.py:117 | the normalised text has no space and no `р` left |
| AmountParser.ExpandThousands | bot.py:119-120 | after expansion no `к` is left, and no space or `р` is introduced |
| AmountParser.Expanded | bot.py:117-120 | the string checked by `isdigit` holds no space, no `р` and no `к` |
| AmountParser.ParseAmount | bot.py:117-126 | `isdigit` followed by `int` without CPython's 4300-digit cap (which `Handlers.OnText` applies): an accepted text consists, after lower-casing, only of digits, spaces and the letters `р`, `у`, `б`, `к` |
| AmountParser.Survives | bot.py:117-122 | a character whose lower case is not a digit, a space or a letter of `руб`/`к` survives into the checked string |
| AmountParser.ParseAlphabet | bot.py:117-122 | every text whose checked string is all digits consists, after lower-casing, only of digits, spaces and `р`, `у`, `б`, `к` |
| AmountParser.ExpandedAfterDigits | bot.py:117-120 | text following a run of digits is normalised and expanded on its own |
| AmountParser.ParseDigitsWithUnit | bot.py:117-126 | a digit string followed by any text that normalises to nothing (a currency word or its abbreviation, spaces) parses to the digits' value |
| AmountParser.ParseDecimal | bot.py:117-126 | every number written in decimal, with or without such a unit, parses back to itself; the handler accepts it only when its checked string has at most 4300 digits (`Handlers.TextOutcome`) |
| AmountParser.ParseThousands | bot.py:117-126 | a digit string followed by `к` or `К` parses to a thousand times its value |
| AmountParser.SpaceIgnored | bot.py:117 | a space anywhere in the text makes no difference to the result |
| AmountParser.ExpandedAfterThousand | bot.py:119-120 | a leading `к` becomes `000` and the rest is expanded on its own |
| AmountParser.ExpandedThousandTwice | bot.py:119-120 | each of two `к` letters becomes `000` in place, a substitution and not a product |
| AmountParser.UnitsVanish | bot.py:117 | the empty text, `р`, `руб`, ` руб` and `РУБ` normalise to nothing |
| AmountParser.ExampleThousand | bot.py:117-126 | `1к` parses to 1000 |
| AmountParser.ExampleTwoThousand | bot.py:117-126 | `2к` parses to 2000 |
| AmountParser.ExampleUpperThousand | bot.py:117-126 | `2К` parses to 2000, because the text is lower-cased first |
| AmountParser.ExampleTwoBillion | bot.py:117-126 | `2ккк` parses to 2000000000 |
| AmountParser.ExampleRubles | bot.py:117-126 | `500р` and `500руб` parse to 500 |
| AmountParser.ExampleSpaced | bot.py:117-126 | `1 000 руб` parses to 1000 |
| AmountParser.ExampleRepeatedThousand | bot.py:117-126 | `1к1к` parses to 10001000 |
| AmountParser.ExampleRejected | bot.py:117-124 | `руб` and the empty text are rejected, because they normalise to the empty string |
| AmountParser.ExampleLatinK | bot.py:117-124 | the Latin `1k` is rejected; only the Cyrillic letter is a thousand |
| Billing.Period | bot.py:127 | the period is the largest number of months whose price does not exceed the amount (floor division by 50) |
| Billing.PeriodPositive | bot.py:127-129 | the period is at least one month exactly when the amount is at least 50 |
| Handlers.IntervalFits | bot.py:186 | `add_job` accepts an interval of `weeks` weeks on day `today` iff `7 * weeks <= 999,999,999` (the `timedelta` limit) and `today + 7 * weeks <= 3,652,059` (9999-12-31); so at most 142,857,142 weeks, and on any real date only the second bound matters (`Handlers.HugeAmountUnarmed` is a case that fails the first) |
| Handlers.InterleavedPressArmsEmptyJob | bot.py:65-186 | if "own amount" overwrites the session while `callback_pay_50` awaits its replies, `schedule_reminder` arms a job for 0 roubles with `weeks=0`, and the invariant fails |
| Handlers.ScheduleReminder | bot.py:159-186 | sessions are untouched and earlier jobs kept; exactly one job, with the session's amount every `period * 4` weeks, is added iff the user has a session and the scheduler accepts that interval on that day |
| Handlers.OnStart | bot.py:52-56 | the user's session becomes `{false, 0, 0}`; other sessions and all jobs are unchanged |
| Handlers.OnPayFixed | bot.py:59-86 | the session becomes `{false, 50, 1}` whatever it was; other sessions are unchanged; one job for 50 every 4 weeks is appended iff four weeks from today is a valid date |
| Handlers.OnCustomAmount | bot.py:89-103 | the user's session becomes `{true, 0, 0}`; other sessions and all jobs are unchanged |
| Handlers.OnText | bot.py:106-156 | only the sender's session can change, no job is removed, and a job is appended exactly when the reply is `Subscribed` |
| Handlers.EmptyOk | bot.py:30 | the empty bot state satisfies the invariant |
| Handlers.StepKeepsInv | bot.py:52-186 | every handler keeps the invariant: each session's period is its amount's period, a waiting session holds no amount, every job belongs to a user with a session, covers at least one month, fires every `4 * period` weeks and fits in a `timedelta` |
| Handlers.StepKeepsUsers | bot.py:52-140 | no handler deletes a user's session |
| Handlers.StepFrame | bot.py:52-186 | an event changes only its own user's session, keeps every scheduled job and appends at most one, for its own user |
| Handlers.TextOutcome | bot.py:111-134 | free text is ignored without a session or outside the amount flow; it is answered as invalid iff it does not parse, ends in `ValueError` iff its digit string is longer than 4300, and is answered as insufficient iff it parses below 50; none of these changes sessions or jobs |
| Handlers.TextSubscribed | bot.py:126-186 | a successful amount stores `{false, amount, amount // 50}` with a period of at least 1; one job with the captured amount every `period * 4` weeks is appended iff that interval fits, and otherwise the handler ends in `ArmFailed` with no job |
| Handlers.RunKeepsInv | bot.py:52-186 | the invariant holds after any sequence of events |
| Handlers.RunOnlyAppends | bot.py:186 | over any sequence of events the job list only grows, by at most one job per event |
| Handlers.RepeatedPayDuplicates | bot.py:59-86 | pressing the fixed-price button twice leaves two identical live jobs for the user |
| Handlers.StartKeepsJob | bot.py:52-86 | `/start` after a payment resets the period to 0 but leaves the job running |
| Handlers.InsufficientKeepsWaiting | bot.py:96-134 | after "own amount", an amount below 50 leaves the state unchanged, so the bot still waits for an amount |
| Handlers.CustomAmountFlow | bot.py:52-186 | `/start`, "own amount", `2к` leads to the session `{false, 2000, 40}` and exactly one job every 160 weeks |
| Handlers.HugeAmountUnarmed | bot.py:126-186 | after "own amount", `2ккк` stores `{false, 2000000000, 40000000}` and replies, but on every day `add_job` overflows and no job is added |
| Bot.PaymentBot.constructor | bot.py:26-30 | a new bot has no sessions and no jobs |
| Bot.PaymentBot.CmdStart | bot.py:52-56 | the user's session becomes `{false, 0, 0}`, other sessions and all jobs are unchanged |
| Bot.PaymentBot.ScheduleReminder | bot.py:159-186 | with no session nothing changes; otherwise exactly one job with the session's amount and `period * 4` weeks is appended when the interval fits, and `add_job` raises with no job added when it does not; sessions are untouched |
| Bot.PaymentBot.CallbackPayFixed | bot.py:59-86 | the session becomes `{false, 50, 1}` and one job for 50 every 4 weeks is appended when four weeks from today is a valid date |
| Bot.PaymentBot.CallbackCustomAmount | bot.py:89-103 | the session becomes `{true, 0, 0}` and no job is added |
| Bot.PaymentBot.HandleCustomAmountMessage | bot.py:106-156 | the reply and new state are those of `Handlers.OnText`; only an accepted amount of at least 50 changes anything, storing its floor period, and one job is appended iff its interval fits |

## Left out

- The chat transport: the bot object, dispatcher, router, inline keyboards and
  reply texts (bot.py:21-24, 39-50, 72-84, 143-155). The text handler returns
  which reply it sends as an `Outcome`; the button handlers' fixed replies are
  not modelled.
- The scheduler's timing and the reminder's body (bot.py:171-183). A job is
  only the record (user, captured amount, interval in weeks); when and how
  often it fires and the message it sends are not modelled.
- Process start-up: `main`, `asyncio.run`, `scheduler.start`, polling and the
  token from the environment (bot.py:17, 189-195).
- Concurrency between handlers: the model handles one event at a time,
  while the dispatcher runs each update as its own task. `schedule_reminder`
  reads the session after the arming handler's awaits (bot.py:79-86,
  150-156), so a press of "own amount" or `/start` in between makes it arm a
  one-second job for 0 roubles. `Handlers.StepKeepsInv` and
  `Handlers.RunKeepsInv` (every job covers at least one month) hold only for
  one event at a time; `Handlers.InterleavedPressArmsEmptyJob` shows the
  interleaved case.
- Unicode digits other than ASCII `0`..`9`, which `str.isdigit` accepts and
  `int` may reject, and lower-casing beyond ASCII and basic Cyrillic.
- The pay button's URL (bot.py:18), which never affects the state.
- Bot.PaymentBot.CmdStart: a failing `message.answer` raises before the
  session is written (bot.py:47-56); the model assumes every send succeeds.
  The same holds for `Handlers.OnStart`.
- Bot.PaymentBot.CallbackPayFixed: a failing `message.answer` or
  `callback.answer` raises after the session is written and before the job
  is armed (bot.py:79-86); the model assumes every send succeeds. The same
  holds for `Handlers.OnPayFixed`.
- Bot.PaymentBot.HandleCustomAmountMessage: a failing reply ends the handler
  early: after an invalid or insufficient amount nothing else happens anyway,
  but a failing payment-link reply leaves the new session without a job
  (bot.py:150-156); the model assumes every send succeeds. The same holds
  for `Handlers.OnText`.
- Later fire times: the model checks only the first fire time that
  `add_job` computes; what the scheduler does when a later fire time would
  pass year 9999 is part of its timing, which is not modelled.
