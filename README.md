# REX bot: a Dafny model of its core

REX is a Telegram bot with three kinds of users. Buyers scan a QR code from a product package to get five days of access. They then fill in questionnaires: diet, trainer, dating, horoscope and natal chart. They receive an LLM-written recommendation, check in every evening and are matched with other dating profiles.

The pieces modelled here are these:

- the bot's handlers;
- the decision of the subscription middleware (src/bot/middlewares/check_sub.py), which src/bot/main.py defines but never registers;
- the two workers that consume `q_ai_generation` and `q_notifications`;
- the scheduled jobs;
- the helpers those pieces share: keyboards, zodiac signs, the HTML cleanup and the sheet parser.

How the system is represented:

- **Shared state.** The database tables, the Redis key space, the two RabbitMQ queues and aiogram's FSM storage are the fields of one object, `Store.Backend`.
- **Handlers.** Each handler is a pure function from a snapshot (`Store.World`) to the new snapshot and the reply. It is also a method on `Backend` that is proved to have exactly that effect.
- **Functional cores.** The pure parts of the bot are functions, and the loops are methods with invariants: options layout, streak, sheets, matching, scheduler jobs.
- **Exceptions.** An exception that escapes a handler is an explicit reply (`Raised`).
- **Inputs from outside.** Time, the LLM, `str.format` and the Telegram Bot API are parameters.

Modules, one per concern:

- `Strings`: Python's `strip`, `split`, `int()` and `str()` on `seq<char>`, and a `lower` that folds Latin and basic Cyrillic capitals.
- `Dates`: `strptime("%d.%m.%Y")` and `strftime("%Y-%m-%d")`.
- `Answers`: an insertion-ordered dict.
- `Config`, `Models`, `Keyboards`, `Queues`, `Store`.
- The behaviour modules: `Access`, `Start`, `Survey`, `Tracking`, `Dating`, `Horoscope`, `TextCleanup`, `AiWorker`, `Sender`, `Scheduler`, `Matching`, `Sheets`.
- `CleanupExamples`: a worked list example for the HTML cleanup.

## Model

| member | source | states |
|---|---|---|
| Strings.Strip | src/services/sheets.py:30 | `str.strip()`: the result is the slice of the argument between its leading and trailing whitespace, and starts and ends with a non-space |
| Strings.StripSurround | src/bot/handlers/survey.py:267 | whitespace around a text that starts and ends with a non-space is removed and nothing else is |
| Strings.StripFixed | src/bot/handlers/survey.py:267 | a text without surrounding whitespace is its own strip |
| Strings.Split | src/bot/handlers/tracking.py:70 | `str.split(c)` gives one more part than there are separators, and no part holds the separator |
| Strings.SplitJoin | src/bot/handlers/tracking.py:70 | splitting what was joined gives back the fields when none holds the separator |
| Strings.JoinSplit | src/bot/handlers/tracking.py:70 | joining the parts of a split gives back the string |
| Strings.SplitThreeFields | src/bot/handlers/tracking.py:70 | `a_b_c` splits into exactly `[a, b, c]` when no field holds `_` |
| Strings.SplitTwoFields | src/bot/handlers/dating.py:43 | `a_b` splits into exactly `[a, b]` when neither field holds `_` |
| Strings.IntToString | src/bot/keyboards/dating.py:10 | `str(n)`: non-empty, digits with at most a leading minus |
| Strings.NatToString | src/bot/keyboards/dating.py:10 | `str(n)` of a non-negative number is a non-empty run of decimal digits |
| Strings.NatToStringValue | src/bot/keyboards/dating.py:10 | the decimal digits of `n` have the value `n` |
| Strings.ParseInt | src/bot/handlers/survey.py:40 | `int(s)` in base 10 over ASCII digits (whitespace, a sign, digit groups with single underscores), `None` where Python raises on such text; it never accepts a blank string |
| Strings.ParseDigits | src/bot/handlers/survey.py:40 | `int()` of a stripped signed run of digits is its signed value |
| Strings.IntToStringParses | src/bot/handlers/dating.py:43 | `int(str(n)) == n` for every integer |
| Strings.DropUnderscores | src/bot/handlers/survey.py:40 | the digits of a digit-group string, underscores dropped; bare digits are kept as they are |
| Strings.Lower | src/services/matching.py:22 | `str.lower()` restricted to Latin A-Z and Cyrillic U+0400-U+042F: exactly those capitals change, the length is kept and the result lowers to itself |
| Dates.DaysInMonth | src/bot/handlers/survey.py:269 | every month has 28 to 31 days; February has 29 exactly in leap years |
| Dates.DayField | src/bot/handlers/survey.py:269 | the `%d` field: a day 1 to 31 in one or two characters |
| Dates.MonthField | src/bot/handlers/survey.py:269 | the `%m` field: a month 1 to 12 in one or two characters |
| Dates.ParseDmy | src/bot/handlers/survey.py:268-270 | `strptime(val, "%d.%m.%Y")` succeeds only with a date `datetime.date` accepts |
| Dates.ParseFormatDmy | src/bot/handlers/survey.py:268-270 | a valid date typed as ДД.ММ.ГГГГ parses back to itself |
| Dates.ParseDmyShortFields | src/bot/handlers/survey.py:269 | single-digit day and month are accepted (`5.3.1990`) |
| Dates.ParseDmyNoLeapDay | src/bot/handlers/survey.py:269 | a day the month lacks (`29.02.2023`) raises |
| Dates.ParseDmyShortYear | src/bot/handlers/survey.py:269 | a two-digit year (`1.1.90`) raises |
| Dates.Pad2 | src/bot/handlers/survey.py:149 | a `%m` or `%d` field is exactly two digits |
| Dates.Pad2Value | src/bot/handlers/survey.py:149 | a two-digit zero-padded field reads back as its number |
| Dates.Pad4Value | src/bot/handlers/survey.py:269 | a four-digit zero-padded year reads back as its number |
| Dates.FormatIso | src/bot/handlers/survey.py:149 | `strftime("%Y-%m-%d")`: the year, then `-MM-DD` zero-padded |
| Dates.FormatIsoInjective | src/bot/handlers/survey.py:423 | distinct days give distinct strings, so the horoscope mark is a per-day key |
| Answers.Keys | src/bot/handlers/survey.py:295 | the dict's keys in insertion order |
| Answers.Get | src/services/matching.py:62-65 | `d.get(k)` is `None` exactly when `k` is not a key, and otherwise a value stored under `k` |
| Answers.Set | src/bot/handlers/survey.py:295 | `d[k] = v` grows the dict only for a new key |
| Answers.SetGet | src/bot/handlers/survey.py:295 | after `d[k] = v`, `d[k]` is `v` and every other key reads as before |
| Answers.SetKeys | src/bot/handlers/survey.py:295 | an existing key keeps its position and a new one is appended |
| Answers.SetUnique | src/bot/handlers/survey.py:295 | keys stay unique under assignment |
| Config.AdminIds | src/bot/handlers/survey.py:40 | `[int(x) for x in ADMIN_IDS.split(',')]`: one id per part, each the `int()` of its part, or `None` exactly when some part does not parse |
| Config.ParseAll | src/bot/middlewares/check_sub.py:34 | the list comprehension of `int()` over the parts, failing exactly when one part fails |
| Models.NewUser | src/database/models.py:12-36 | a new user has role `user`, no expiry, 0 activations and both tracking flags off, plus the assumed 0 credits and no consent |
| Models.NewQRCode | src/database/models.py:39-51 | a new code is active, with no activation time and no activating user |
| Models.NewUserSurvey | src/database/models.py:65-76 | a new survey row has no `ai_recommendation` |
| Models.NewDatingMatch | src/database/models.py:79-87 | a new vote has `is_match` false |
| Models.NewDailyTracking | src/database/models.py:90-104 | a check-in without a mode gets mode `diet` |
| Models.FindUser | src/bot/handlers/survey.py:52 | `session.get(User, id)`: the index of a row with that key, or `None` exactly when no row has it |
| Models.GetUser | src/bot/middlewares/check_sub.py:40 | the row with that key, present exactly when some row has it |
| Keyboards.MainMenu | src/bot/keyboards/menu.py:3-41 | diet and trainer first, dating and horoscope second, edit and help last; 4 rows with the natal-chart row third when `qr_activations >= 3`, else 3 |
| Keyboards.MainMenuNatalRow | src/bot/keyboards/menu.py:21-23 | the natal-chart button is present exactly when `qr_activations >= 3` |
| Keyboards.CancelKeyboard | src/bot/keyboards/menu.py:46-49 | a single button with data `cancel_survey` |
| Keyboards.DatingKeyboard | src/bot/keyboards/dating.py:3-16 | like and dislike in the first row, report alone in the second, each carrying the target id |
| Keyboards.DatingKeyboardRoundTrip | src/bot/keyboards/dating.py:10-11 | `int(data.split("_")[1])` of the like and dislike data gives back the very id |
| Keyboards.ContactKeyboard | src/bot/keyboards/dating.py:18-23 | one URL button: `https://t.me/` plus the username, or the bare base without one |
| Queues.Encode | src/services/rabbit.py:27 | a queued notification decodes back to its user id, text, photo and keyboard |
| Queues.IncomingMessage.constructor | src/workers/sender_worker.py:22 | a delivered message starts unsettled |
| Queues.IncomingMessage.Ack | src/workers/sender_worker.py:48 | `ack()` adds one ack and nothing else |
| Queues.IncomingMessage.Nack | src/workers/sender_worker.py:58 | `nack(requeue)` adds one nack, and one requeue when asked |
| Queues.IncomingMessage.Reject | src/workers/ai_worker.py:67 | the reject `message.process()` sends on an exception adds one reject |
| Store.Backend.SetState | src/bot/handlers/survey.py:402 | a commit writes the whole new snapshot |
| Store.Backend.SetTables | src/bot/handlers/survey.py:402 | the tables and id counters of a snapshot are written back |
| Store.Backend.SetQueues | src/bot/handlers/survey.py:409 | the Redis keys, the queues and the FSM storage of a snapshot are written back |
| Store.Backend.constructor | src/database/models.py:12-104 | the store starts empty and valid |
| Store.RedisGet | src/services/redis.py:24-33 | `redis.get(key)` is present exactly for a stored key |
| Store.UpdateKeepsUserIds | src/bot/main.py:90-96 | updating a user's row in place keeps primary keys unique |
| Access.DecideMeaning | src/bot/middlewares/check_sub.py:11-53 | the gate passes exactly for a `/start` message, an update without a sender, an admin, or a known user whose expiry is not before now; it raises exactly on a malformed `ADMIN_IDS` it has to read; it blocks everything else |
| Access.Decide | src/bot/middlewares/check_sub.py:11-53 | `/start` always passes; the gate raises exactly when a sender must be checked against a malformed `ADMIN_IDS`; a blocked callback gets an alert, a blocked message a reply |
| Access.AdminNeedsNoLookup | src/bot/middlewares/check_sub.py:34-36 | an admin passes whatever the users table holds |
| Access.ExpiryInstant | src/bot/middlewares/check_sub.py:49-50 | at the expiry instant the gate passes while `/start` no longer counts the subscription active; a second later the gate blocks |
| Horoscope.NextFollowsOrder | src/services/horoscope.py:3-7 | the twelve signs in the tables' order, cyclically |
| Horoscope.KeyInjective | src/services/horoscope.py:9-13 | distinct signs have distinct key strings |
| Horoscope.SignOfKey | src/services/horoscope.py:9-13 | a key string names the sign whose key it is |
| Horoscope.SignOfKeyRoundTrip | src/services/horoscope.py:9-13 | every sign's key reads back as that sign, so the `RUS_SIGNS` lookup never fails |
| Horoscope.ZodiacSign | src/services/horoscope.py:15-36 | `get_zodiac_sign` reads only the month and the day; its chain of tests is proved against the season table by `ZodiacSignMatchesTable` |
| Horoscope.ZodiacSignMatchesTable | src/services/horoscope.py:25-36 | for every month and day, the chain of tests returns exactly the sign whose season in `ZODIAC_SIGNS` holds the date |
| Horoscope.StartDateOwnSign | src/services/horoscope.py:3-7 | each start date maps to its own sign |
| Horoscope.DayBeforeStartPreviousSign | src/services/horoscope.py:25-36 | the day before each start date maps to the previous sign, cyclically |
| Horoscope.SignExamples | src/services/horoscope.py:25-36 | 3/20 is pisces, 1/19 capricorn, 2/18 aquarius, and an out-of-range month falls through to pisces |
| TextCleanup.Clean | src/utils/text.py:3-41 | the cleaned text has no surrounding whitespace and no run of three newlines |
| TextCleanup.WorkerCleanIsClean | src/workers/ai_worker.py:20-64 | the worker's copy of the substitutions computes the same function as src/utils/text.py |
| TextCleanup.CleanPlainText | src/utils/text.py:8-41 | text with no `<`, no backtick, no triple newline and no surrounding whitespace is returned unchanged |
| TextCleanup.CleanHeading | src/utils/text.py:33-34 | `<h2>X</h2>` becomes `<b>X</b>` |
| TextCleanup.FenceRulesOnFence | src/utils/text.py:8-9 | lines 8 and 9 remove both fence marks of a code block and keep its body |
| TextCleanup.FenceTagsCleaned | src/utils/text.py:8-38 | the whole tag pass turns "```html" + y + "```" into y when y holds no markup |
| TextCleanup.CleanFence | src/utils/text.py:3-41 | "```html\nX\n```" becomes X for a body X without markup |
| CleanupExamples.CleanListWith | src/utils/text.py:8-41 | a two-item list becomes two bullet lines for any tags the list rules take as `<ul>`, `<li>`, `</li>`, `</ul>` |
| CleanupExamples.CleanList | src/utils/text.py:19-25 | `<ul><li>a</li><li>b</li></ul>` becomes `• a`, a newline, then `   • b` |
| TextCleanup.CollapseNoTriple | src/utils/text.py:39 | line 39 leaves no three newlines in a row and at most two at the front |
| TextCleanup.CollapseIdentity | src/utils/text.py:39 | text without a triple newline is left alone by line 39 |
| TextCleanup.StripNoTriple | src/utils/text.py:41 | the final strip adds no triple newline |
| TextCleanup.TagRulesLead | src/utils/text.py:8-38 | every substitution before line 39 starts with `<` or a backtick |
| TextCleanup.ApplyRulesIdentity | src/utils/text.py:8-38 | substitutions that each leave a text alone leave it alone together |
| TextCleanup.ApplyRulesAppend | src/utils/text.py:8-38 | applying two blocks of substitutions is applying the first, then the second |
| TextCleanup.MatchAt | src/utils/text.py:12 | a match of a pattern is non-empty, fits in the text and starts with the pattern's first character |
| TextCleanup.FindLit | src/utils/text.py:15 | the lazy `.*?</head>` stops at the first closing tag after the opening one |
| TextCleanup.SkipSpaces | src/utils/text.py:28 | `\s*` inside `<br\s*/?>` stays within the text |
| TextCleanup.SubNoLead | src/utils/text.py:8-38 | `re.sub` leaves a text alone when the pattern's first character does not occur in it |
| TextCleanup.SubMatch | src/utils/text.py:8-38 | a match at the start is replaced and the scan resumes after it |
| TextCleanup.SubFirst | src/utils/text.py:8-38 | where the pattern does not match, the character is kept and the scan moves on by one |
| TextCleanup.HeadingRulesOnHeading | src/utils/text.py:33-34 | lines 33 and 34 turn `<h2>X</h2>` into a bold line |
| TextCleanup.HeadingSkipsEarlyRules | src/utils/text.py:8-32 | the fence, document, list and paragraph rules find nothing in a heading |
| TextCleanup.BoldUntouched | src/utils/text.py:37-38 | the span rules find nothing in bold text |
| AiWorker.EscapeChar | src/workers/ai_worker.py:87 | `json.dumps` escapes a character to printable text, leaving plain characters as they are |
| AiWorker.JsonEscape | src/workers/ai_worker.py:87 | the escaped body of a string literal is never shorter than the text, and empty only for the empty text |
| AiWorker.JsonDumps | src/workers/ai_worker.py:87 | `json.dumps(answers, ensure_ascii=False)` is a braced object |
| AiWorker.JsonEscapeNoControl | src/workers/ai_worker.py:87 | the escaped text holds no control character |
| AiWorker.JsonEscapePlain | src/workers/ai_worker.py:87 | text without quotes, backslashes or controls is written as it is |
| AiWorker.JsonRoundTrip | src/workers/ai_worker.py:87 | every escaped string literal reads back as the original text |
| AiWorker.JsonDumpsEmpty | src/workers/ai_worker.py:87 | empty answers dump as `{}` |
| AiWorker.PromptKey | src/services/redis.py:60-61 | the prompt lives under `prompt:{mode}` |
| AiWorker.ResultText | src/workers/ai_worker.py:107-112 | the user's message is the header naming the mode, the cleaned reply inside `<blockquote expandable>`, then the disclaimer |
| AiWorker.StoredIsNotSent | src/workers/ai_worker.py:104-118 | the stored recommendation is never the text sent, which wraps it |
| AiWorker.OfferKeyboard | src/workers/ai_worker.py:127-132 | one row: `tracking_subscribe`, then `tracking_unsubscribe` |
| AiWorker.SetRecommendation | src/workers/ai_worker.py:115-118 | the update writes `ai_recommendation` on the rows with that id and changes nothing else |
| AiWorker.Deliver | src/workers/ai_worker.py:114-138 | the cleaned reply is stored, then exactly two notifications follow for the user, in order; nothing else changes |
| AiWorker.MalformedRejected | src/workers/ai_worker.py:67-74 | a body that does not decode, or lacks a key, rejects the message and changes nothing |
| AiWorker.MissingPromptOnlyAcks | src/workers/ai_worker.py:77-80 | a missing prompt template makes no request, no update and no notification, and the message is still acked |
| AiWorker.PromptFallback | src/workers/ai_worker.py:83-87 | the model sees the formatted template, or the raw template plus `\n\nДанные: ` and the answers as JSON |
| AiWorker.SystemText | src/workers/ai_worker.py:83-87 | the formatted template when `format` succeeds; otherwise the raw template, the data label and the answers as a JSON object |
| AiWorker.TaskEffect | src/workers/ai_worker.py:66-138 | `process_task`: reject a malformed body, ack without work when the prompt is missing, otherwise store the cleaned reply and queue two notifications; its cases are stated by `MalformedRejected`, `MissingPromptOnlyAcks` and `TaskStoresAndNotifies` |
| AiWorker.TaskStoresAndNotifies | src/workers/ai_worker.py:101-138 | with a prompt, the cleaned reply is stored, two notifications are queued in order and the message is acked |
| AiWorker.TaskKeepsValid | src/workers/ai_worker.py:66-138 | the worker keeps the store's invariants |
| AiWorker.DeliverKeepsValid | src/workers/ai_worker.py:114-138 | storing and notifying keeps the store's invariants |
| AiWorker.ProcessTask | src/workers/ai_worker.py:66-138 | the store ends as the generation task's effect says, and the message is acked or rejected accordingly |
| Sender.CallFor | src/workers/sender_worker.py:38-41 | a non-empty photo gives `send_photo` with the text as caption; otherwise `send_message` with the text; same chat and keyboard |
| Sender.Handle | src/workers/sender_worker.py:22-75 | undecodable or without `user_id`: unsettled, and the handler raises; a rate limit: requeued with the advised pause; any other outcome: acked |
| Sender.ProducedNotificationDelivered | src/workers/sender_worker.py:22-48 | every produced notification becomes exactly its intended call and is settled once |
| Sender.RequeueRepeatsCall | src/workers/sender_worker.py:50-60 | a requeued message makes the same call when it comes back |
| Sender.OnlyRateLimitRetries | src/workers/sender_worker.py:62-75 | any failure but a rate limit acks, so the message is dropped |
| Sender.MissingTextIsEmpty | src/workers/sender_worker.py:26 | a body without `text` is sent with the empty text |
| Sender.ProcessNotification | src/workers/sender_worker.py:22-75 | the handler settles the message as `Handle` says: one ack, one requeueing nack, or nothing when it raises |
| Start.NewExpiry | src/bot/main.py:93-96 | the new expiry is `max(old, now)` plus five days |
| Start.NewExpiryNeverShortens | src/bot/main.py:93-96 | the new expiry is after the old one and after now |
| Start.Redeemed | src/bot/main.py:90-96 | redemption adds exactly one activation, extends the expiry and changes nothing else |
| Start.Registered | src/bot/main.py:40-51 | an unknown user gets one new default row; a known user's table is unchanged |
| Start.RegisteredKeepsIds | src/bot/main.py:44-51 | registration keeps user ids unique |
| Start.StartEffect | src/bot/main.py:34-121 | `start_handler` step by step: register, then redeem the argument's code or show the menu or the welcome text; its effect is stated by the `StartEffect…` and `Start…` lemmas below |
| Start.StartEffectUsers | src/bot/main.py:34-121 | the users table after `/start` is the registered one, with at most the caller's row redeemed, and only on an activation |
| Start.StartEffectCodes | src/bot/main.py:83-98 | the codes table is unchanged, or has the argument's code stamped with the time and the caller |
| Start.StartRegistersOnce | src/bot/main.py:44-51 | an unknown user is registered exactly once with default columns |
| Start.StartRejectedCodeChangesNothing | src/bot/main.py:63-80 | an unknown, inactive or already activated code changes nothing beyond registration; the reply tells one's own activation from someone else's |
| Start.StartActivation | src/bot/main.py:83-113 | a fresh code is stamped, the count rises by one, the expiry becomes `max(old, now)` plus five days, and the achievement is sent exactly at a count of 3 |
| Start.StartPlain | src/bot/main.py:116-121 | a plain `/start` shows the menu exactly while the expiry is strictly after now |
| Start.StartSession | src/bot/main.py:38-113 | the session's work computes exactly the effect of `/start` |
| Start.StartHandler | src/bot/main.py:34-121 | `/start` changes only the users and codes tables, as its effect says |
| Start.StartEffectValid | src/bot/main.py:34-121 | `/start` keeps keys unique and every code under its own hash |
| Survey.KindOf | src/bot/handlers/survey.py:385-424 | the modes the handlers tell apart, each recognised exactly by its name |
| Survey.MenuMappingMatchesMenu | src/bot/handlers/survey.py:28-34 | the service buttons of the fullest main menu are exactly the keys of `MENU_MAPPING` |
| Survey.ConfigId | src/bot/handlers/survey.py:395-396 | `survey_config_id` is 1 to 5, and 1 for an unlisted mode |
| Survey.IsAdmin | src/bot/handlers/survey.py:38-43 | a malformed `ADMIN_IDS` makes nobody an admin |
| Survey.IsAdminMeaning | src/bot/handlers/survey.py:38-43 | an id is an admin exactly when every part parses and one of them is that id |
| Survey.OptionData | src/bot/handlers/survey.py:65 | the callback data is at most 64 characters |
| Survey.OptionDataRoundTrip | src/bot/handlers/survey.py:240-243 | `data[4:]` gives the option back exactly when it is at most 60 characters, and otherwise its first 60 |
| Survey.OptionsLayoutShape | src/bot/handlers/survey.py:61-73 | options two per row in order; only the last row may hold one |
| Survey.OptionsLayoutAppendPair | src/bot/handlers/survey.py:67-69 | two more options add one full row |
| Survey.OptionsLayoutAppendOne | src/bot/handlers/survey.py:70-71 | one more option after a full row adds a one-button row |
| Survey.OptionsKeyboard | src/bot/handlers/survey.py:61-73 | the loop builds exactly the two-per-row layout |
| Survey.QuestionKeyboard | src/bot/handlers/survey.py:199-200 | a question gets option buttons exactly when it is a `button` question with options |
| Survey.ModeMenuKeyboard | src/bot/handlers/survey.py:93-98 | a start button and a tracking toggle carrying the mode, labelled by the flag |
| Survey.ToggleModeRoundTrip | src/bot/handlers/survey.py:116 | `data.split("_")[2]` of the toggle data gives back the mode |
| Survey.TrackingOfferKeyboard | src/bot/handlers/survey.py:412-415 | one row: the mode's toggle, then `ignore` |
| Survey.Validate | src/bot/handlers/survey.py:261-271 | a photo question accepts exactly a photo and keeps the last size; any other needs text, kept stripped, and `birth_date` must be a `%d.%m.%Y` date |
| Survey.TypedBirthDateAccepted | src/bot/handlers/survey.py:267-270 | a date typed as ДД.ММ.ГГГГ, with surrounding spaces, is accepted stripped |
| Survey.GetMainMenu | src/bot/keyboards/menu.py:3 | `get_main_menu` succeeds exactly when called with `qr_activations` |
| Survey.MenuMarkupAsWrittenRaises | src/bot/handlers/survey.py:45-55 | as written the menu is never built: every call raises |
| Survey.MenuMarkup | src/bot/main.py:119 | the corrected menu offers the natal chart exactly at 3 activations |
| Survey.CallbackSurveyModeRoundTrip | src/bot/handlers/survey.py:163-168 | the per-mode start button starts that mode |
| Survey.StartSurveyOutcome | src/bot/handlers/survey.py:173-179 | no questions: nothing changes; questions: only the user's conversation changes, to step 0 with no answers |
| Survey.StartSurvey | src/bot/handlers/survey.py:173-207 | `_start_survey_logic`: no questions, no state; otherwise step 0 with no answers and the first question (stated by `StartSurveyOutcome`) |
| Survey.StartNatalChart | src/bot/handlers/survey.py:133-143 | `start_natal_chart`: an admin starts at once, a missing user raises, a user without a credit is refused (stated by `StartNatalChartHandler`) |
| Survey.StartHoroscope | src/bot/handlers/survey.py:145-155 | `start_horoscope`: refused for a non-admin already marked today (stated by `StartHoroscopeHandler` and `HoroscopeOncePerDay`) |
| Survey.Toggle | src/bot/handlers/survey.py:114-129 | `toggle_tracking`: flips its mode's flag on the user's row (stated by `ToggleFlipsFlag` and `ToggleTwiceRestores`) |
| Survey.WithTracking | src/bot/handlers/survey.py:120-125 | the mode's flag is set and the user keeps their id |
| Survey.ToggleTwiceRestores | src/bot/handlers/survey.py:114-129 | toggling twice restores every record |
| Survey.UpdateFindUser | src/bot/handlers/survey.py:119-126 | updating the looked-up row keeps the lookup |
| Survey.ToggleFlipsFlag | src/bot/handlers/survey.py:114-129 | the toggle flips exactly its mode's flag on the user's row |
| Survey.ToggleTracking | src/bot/handlers/survey.py:114-129 | only data starting with `toggle_tracking_` is routed to the toggle (stated by `ToggleNeedsPrefix` and `ToggleFlipsFlag`) |
| Survey.ToggleNeedsPrefix | src/bot/handlers/survey.py:114-116 | data naming a mode in its third field is still not routed unless it starts with `toggle_tracking_` |
| Survey.RejectedAnswerChangesNothing | src/bot/handlers/survey.py:272-283 | a rejected answer changes nothing and repeats the question with the reason |
| Survey.AnswerAdvances | src/bot/handlers/survey.py:295-299 | before the last question the answer is stored under its key, other keys keep their values and the step moves on by one |
| Survey.LastAnswer | src/bot/handlers/survey.py:321-347 | after the last question a consented user is finished at once; anyone else moves to the consent step with the answers kept |
| Survey.ButtonAnswerStoredAsIs | src/bot/handlers/survey.py:240-243 | a button answer is stored unvalidated, whatever the question |
| Survey.HandleAnswer | src/bot/handlers/survey.py:287-347 | `_handle_answer`: store the answer, then ask the next question, finish, or ask for consent (stated by `AnswerAdvances` and `LastAnswer`) |
| Survey.ProcessMessageAnswer | src/bot/handlers/survey.py:246-285 | `process_message_answer`: outside a running survey nothing is routed; otherwise validate, then `HandleAnswer` (stated by `RejectedAnswerChangesNothing`) |
| Survey.ProcessButtonAnswer | src/bot/handlers/survey.py:240-244 | `process_button_answer`: the option is recorded unvalidated (stated by `ButtonAnswerStoredAsIs`) |
| Survey.CancelSurvey | src/bot/handlers/survey.py:211-236 | cancelling a running survey drops the conversation and replies with the corrected menu; anything else is not routed (stated by `CancelEndsOnlyThisSurvey`; as written the handlers raise, see `CancelAsWrittenRaises`) |
| Survey.CancelEndsOnlyThisSurvey | src/bot/handlers/survey.py:211-236 | a cancel is routed exactly while the user's survey runs; it ends that conversation only, changes nothing in the database, and a second cancel is not routed |
| Survey.CancelSurveyAsWritten | src/bot/handlers/survey.py:211-224 | `cancel_survey_callback` and `cancel_survey_text` as written: the menu call raises after the conversation is dropped |
| Survey.CancelAsWrittenRaises | src/bot/handlers/survey.py:213-214 | as written, cancelling a running survey drops the conversation and raises instead of showing the menu |
| Survey.ProcessConsent | src/bot/handlers/survey.py:351-370 | `process_consent` with the corrected menu: a refusal drops the conversation, consent is recorded and the survey finished (stated by `ConsentNoWritesNothing` and `ConsentYesRecordsThenFinishes`; as written both answers raise, see `ConsentAsWrittenRaises`) |
| Survey.ProcessConsentAsWritten | src/bot/handlers/survey.py:351-370 | `process_consent` as written: both answers reach a menu call that raises |
| Survey.ConsentAsWrittenRaises | src/bot/handlers/survey.py:356-370 | as written, a refusal drops the conversation and raises; a consent is committed, the conversation dropped, and it raises with no survey stored |
| Survey.AcceptPolicy | src/bot/handlers/survey.py:362-365 | the update sets `has_accepted_policy` on the user's rows and nothing else |
| Survey.ConsentNoWritesNothing | src/bot/handlers/survey.py:356-359 | a refusal drops the conversation, writes nothing else and replies with the corrected menu |
| Survey.ConsentYesRecordsThenFinishes | src/bot/handlers/survey.py:361-370 | consent is recorded before the survey is finished |
| Survey.FinishSurveyAsWrittenLosesAnswers | src/bot/handlers/survey.py:374-379 | as written, finishing stores no survey and queues no task |
| Survey.FinishSurveyAsWritten | src/bot/handlers/survey.py:374-379 | `_finish_survey` as written: the menu call raises right after the conversation is dropped |
| Survey.FinishSurvey | src/bot/handlers/survey.py:374-437 | `_finish_survey` with the corrected menu: drop the conversation, then the session (stated by `FinishDropsConversation` and `FinishStoresOneSurvey`) |
| Survey.FinishSession | src/bot/handlers/survey.py:381-437 | the session: the credit gate, one `UserSurvey`, then by mode a task, the dating confirmation or the horoscope (stated by `FinishStoresOneSurvey`, `FinishCredits` and `Dispatch`) |
| Survey.Dispatch | src/bot/handlers/survey.py:404-437 | diet, trainer and natal chart queue exactly one generation task; only the horoscope touches Redis |
| Survey.ShowHoroscope | src/bot/handlers/survey.py:426-437 | showing the horoscope changes nothing |
| Survey.FinishDropsConversation | src/bot/handlers/survey.py:376 | finishing always drops the conversation first |
| Survey.FinishStoresOneSurvey | src/bot/handlers/survey.py:381-409 | finishing raises for a missing user and refuses a credit-less non-admin natal chart, storing nothing in either case; otherwise it stores exactly one survey with the mode's config id and queues one task for diet, trainer and natal chart |
| Survey.FinishCredits | src/bot/handlers/survey.py:385-389 | a non-admin natal chart spends exactly one credit; credits never go below zero |
| Survey.HoroscopeOncePerDay | src/bot/handlers/survey.py:149-153 | finishing a horoscope marks the day for a day, and `start_horoscope` then refuses a non-admin |
| Survey.AcceptPolicyKeepsIds | src/bot/handlers/survey.py:363 | recording consent keeps user ids unique |
| Survey.FinishKeepsValid | src/bot/handlers/survey.py:374-409 | finishing keeps the store's invariants |
| Survey.HandleAnswerKeepsValid | src/bot/handlers/survey.py:287-347 | recording an answer keeps the store's invariants |
| Survey.StartSurveyLogic | src/bot/handlers/survey.py:173-207 | the handler has exactly the effect of starting the survey |
| Survey.StartNatalChartHandler | src/bot/handlers/survey.py:133-143 | a non-admin without a credit is refused; everyone else starts |
| Survey.StartHoroscopeHandler | src/bot/handlers/survey.py:145-155 | a non-admin who has viewed today is refused |
| Survey.ToggleTrackingHandler | src/bot/handlers/survey.py:114-129 | the handler has exactly the toggle's effect |
| Survey.CancelSurveyHandler | src/bot/handlers/survey.py:211-236 | the handler has exactly the effect of the corrected cancel |
| Survey.ProcessMessageAnswerHandler | src/bot/handlers/survey.py:246-285 | validate, then record |
| Survey.ProcessButtonAnswerHandler | src/bot/handlers/survey.py:240-244 | record the option as it is |
| Survey.HandleAnswerValues | src/bot/handlers/survey.py:287-347 | computes the answer step on a snapshot |
| Survey.HandleAnswerStep | src/bot/handlers/survey.py:287-347 | the handler has exactly the answer step's effect |
| Survey.ProcessConsentHandler | src/bot/handlers/survey.py:351-370 | the handler has exactly the consent step's effect |
| Survey.FinishValues | src/bot/handlers/survey.py:374-437 | computes finishing on a snapshot |
| Survey.SessionValues | src/bot/handlers/survey.py:381-402 | computes the finishing session on a snapshot |
| Survey.DispatchValues | src/bot/handlers/survey.py:404-437 | computes the mode-specific tail on a snapshot |
| Survey.FinishSurveyStep | src/bot/handlers/survey.py:374-437 | the handler has exactly the effect of finishing |
| Tracking.HistoryMembers | src/bot/handlers/tracking.py:36-41 | the query reads exactly the user's records of the requested mode |
| Tracking.SortPermutes | src/bot/handlers/tracking.py:41 | ordering by date keeps exactly the query's records |
| Tracking.InsertPermutes | src/bot/handlers/tracking.py:41 | one insertion step of the ordering keeps the records |
| Tracking.SortStrict | src/bot/handlers/tracking.py:41 | records with distinct dates come out strictly newest first |
| Tracking.InsertKeepsStrict | src/bot/handlers/tracking.py:41 | inserting a new date keeps the order strict |
| Tracking.ByDateDesc | src/bot/handlers/tracking.py:41 | `order_by(desc(date))` keeps the number of records (its order and contents are stated by `SortStrict` and `SortPermutes`) |
| Tracking.HistoryDistinct | src/bot/handlers/tracking.py:82-87 | with one check-in per user, mode and day, a history has distinct dates |
| Tracking.SortedHistoryStrict | src/bot/handlers/tracking.py:36-44 | the history the streak walks is strictly newest first |
| Tracking.CalculateStreak | src/bot/handlers/tracking.py:46-62 | the loop computes the walk: skip future records, count good days back from today, stop at anything else |
| Tracking.StreakFrom | src/bot/handlers/tracking.py:46-62 | the walk counts at most one day per record (its meaning is stated by `StreakMeaning`) |
| Tracking.StreakMeaning | src/bot/handlers/tracking.py:46-62 | the streak is the run of consecutive good days ending today, the day before it has none, and it is at most the number of records not after today |
| Tracking.StreakZeroIffNotToday | src/bot/handlers/tracking.py:46-62 | the streak is 0 exactly when today has no good check-in |
| Tracking.StreakExample | src/bot/handlers/tracking.py:46-62 | three good days then a `fail` give 3 |
| Tracking.CountNotAfterMono | src/bot/handlers/tracking.py:52 | fewer records lie before an earlier day |
| Tracking.TrackData | src/workers/scheduler.py:54-56 | the button data starts with `track_` |
| Tracking.ParseTrackData | src/bot/handlers/tracking.py:70 | the split gives a mode and a status without `_`, or raises |
| Tracking.TrackDataRoundTrip | src/bot/handlers/tracking.py:70 | `track_<mode>_<status>` splits back into that mode and status |
| Tracking.SummaryShowsStreak | src/bot/handlers/tracking.py:118-124 | the summary shows the streak for `success` and `partial` and a reset otherwise |
| Tracking.Record | src/bot/handlers/tracking.py:89-127 | an accepted check-in appends exactly one row |
| Tracking.Edited | src/bot/handlers/tracking.py:126 | the edit succeeds exactly when the pressed message has text |
| Tracking.DuplicateChangesNothing | src/bot/handlers/tracking.py:82-87 | a repeated check-in for the same mode and day changes nothing and answers "already checked in" |
| Tracking.CheckinStoresOne | src/bot/handlers/tracking.py:89-115 | a first check-in stores exactly one row with the button's mode and status and today's date; the reward comes exactly at a streak of 7 |
| Tracking.FirstCheckinStreak | src/bot/handlers/tracking.py:104 | after a first check-in the streak is positive exactly for a good status |
| Tracking.CheckinKeepsUnique | src/bot/handlers/tracking.py:82-92 | the check-then-insert keeps one check-in per user, mode and day |
| Tracking.TrackEffect | src/bot/handlers/tracking.py:66-132 | `process_daily_track` with the corrected streak: route, parse, refuse a duplicate, else record (stated by `DuplicateChangesNothing` and `CheckinStoresOne`) |
| Tracking.StreakAsWritten | src/bot/handlers/tracking.py:46-62 | the walk as written, where only the freshly inserted row holds a plain `date`: it answers on a non-empty history only when the newest record is that fresh row |
| Tracking.RecordAsWritten | src/bot/handlers/tracking.py:89-132 | as written, the row is committed before the walk, so the store is as in the corrected model and the reply is the streak or the generic failure |
| Tracking.CheckinAsWrittenFailsOnHistory | src/bot/handlers/tracking.py:52 | as written, a good first check-in of a user with any other check-in of the mode is committed and then answered with the generic failure |
| Tracking.StreakAsWrittenAtMostOne | src/bot/handlers/tracking.py:46-62 | as written, an answered check-in never shows a streak above 1, so the reward at 7 is never sent |
| Tracking.TrackKeepsValid | src/bot/handlers/tracking.py:66-127 | a check-in keeps the store's invariants |
| Tracking.TrackValues | src/bot/handlers/tracking.py:66-127 | computes the check-in on a snapshot |
| Tracking.RecordValues | src/bot/handlers/tracking.py:89-127 | computes the insert, the streak and the reply on a snapshot |
| Tracking.ProcessDailyTrack | src/bot/handlers/tracking.py:66-127 | the handler has exactly the check-in's effect |
| Dating.FindLike | src/bot/handlers/dating.py:55-58 | finds a vote of the user on the target, or there is none |
| Dating.CreateInteractionRecord | src/bot/handlers/dating.py:14-31 | returns false and adds nothing when the pair already voted; otherwise adds exactly one row with the action |
| Dating.Mention | src/bot/handlers/dating.py:34-36 | `@username` when there is one, else the full name |
| Dating.MatchNotification | src/bot/handlers/dating.py:95-100 | the match notice goes to the target with the liker's contact button |
| Dating.MutualLikeAsWrittenRaises | src/bot/handlers/dating.py:64 | as written, a like that answers a like raises and stores nothing |
| Dating.LikeData | src/bot/handlers/dating.py:41-43 | like data starts with `like_` and decodes to its target |
| Dating.DislikeData | src/bot/handlers/dating.py:103-105 | dislike data starts with `dislike_` and decodes to its target |
| Dating.SelfLikeRefused | src/bot/handlers/dating.py:46-47 | liking oneself is refused before the store is read |
| Dating.SecondVoteChangesNothing | src/bot/handlers/dating.py:51-52 | a second vote on the same ordered pair, like or dislike, changes nothing |
| Dating.LikeMatchesIffMutual | src/bot/handlers/dating.py:55-100 | a first like adds one row; both rows are flagged and one notice is queued to the target exactly when the target liked back |
| Dating.LikeEffect | src/bot/handlers/dating.py:41-100 | `process_like` with line 64 dropped: refuse oneself and a second vote, else store the like and match on a like back (stated by `LikeMatchesIffMutual`, `SelfLikeRefused` and `SecondVoteChangesNothing`) |
| Dating.AcceptLike | src/bot/handlers/dating.py:51-100 | the stored first like and the match it completes (stated by `AcceptLikeKeepsValid` and `LikeFlagsOnlyTheMutual`) |
| Dating.LikeEffectAsWritten | src/bot/handlers/dating.py:64 | `process_like` as written: a mutual like raises before the commit (stated by `MutualLikeAsWrittenRaises`) |
| Dating.LikeFlagsOnlyTheMutual | src/bot/handlers/dating.py:70-71 | only the answered like and the new row get the flag |
| Dating.DislikeNeverMatches | src/bot/handlers/dating.py:103-115 | a dislike never sets `is_match` |
| Dating.DislikeEffect | src/bot/handlers/dating.py:103-115 | `process_dislike`: one row or nothing, never a match (stated by `DislikeNeverMatches`) |
| Dating.VoteKeepsUnique | src/bot/handlers/dating.py:19-31 | the check-then-insert keeps one vote per ordered pair |
| Dating.MatchedKeepsValid | src/bot/handlers/dating.py:60-73 | flagging a match keeps the invariants |
| Dating.LikeKeepsValid | src/bot/handlers/dating.py:41-100 | a like keeps the store's invariants |
| Dating.AcceptLikeKeepsValid | src/bot/handlers/dating.py:51-73 | storing a like keeps the store's invariants |
| Dating.DislikeKeepsValid | src/bot/handlers/dating.py:103-112 | a dislike keeps the store's invariants |
| Dating.LikeValues | src/bot/handlers/dating.py:41-100 | computes the like on a snapshot |
| Dating.AcceptLikeValues | src/bot/handlers/dating.py:51-100 | computes the stored like and the match check on a snapshot |
| Dating.ProcessLike | src/bot/handlers/dating.py:41-100 | the handler has exactly the like's effect |
| Dating.DislikeValues | src/bot/handlers/dating.py:103-115 | computes the dislike on a snapshot |
| Dating.ProcessDislike | src/bot/handlers/dating.py:103-115 | the handler has exactly the dislike's effect |
| Scheduler.CheckinKeyboard | src/workers/scheduler.py:52-58 | one row of three buttons `track_<mode>_<status>` |
| Scheduler.CheckinCallbacksRoundTrip | src/workers/scheduler.py:54-56 | each check-in button splits back into the job's mode and the button's status; the first two extend a streak |
| Scheduler.Broadcast | src/workers/scheduler.py:61-68 | the same text and keyboard, once per recipient, in order |
| Scheduler.CheckinRecipientsMeaning | src/workers/scheduler.py:47-50 | recipients are exactly the users with expiry after now and the job's flag on |
| Scheduler.Eligible | src/workers/scheduler.py:47-50 | the check-in query's filter: expiry strictly after now and the job's flag on; a null expiry fails |
| Scheduler.CheckinRecipientsSnoc | src/workers/scheduler.py:61 | one more user adds at most that user |
| Scheduler.QueueCheckins | src/workers/scheduler.py:60-69 | the loop queues one message per recipient in order and counts them |
| Scheduler.SendCheckin | src/workers/scheduler.py:43-97 | both check-in jobs queue their question and keyboard to each eligible user, and the count equals the number queued |
| Scheduler.ReportMessage | src/workers/scheduler.py:121-126 | the report goes to the user as text only |
| Scheduler.Report | src/workers/scheduler.py:118-126 | a report exists exactly when the window has a success, partial or fail of the user |
| Scheduler.ReportMessages | src/workers/scheduler.py:111-127 | one report per listed user, in order |
| Scheduler.CountStatusWindow | src/workers/scheduler.py:108-114 | a record counts exactly when it is the user's, has the status and is dated on or after `today - 7`, whatever its mode |
| Scheduler.CountStatus | src/workers/scheduler.py:112-118 | one status's count for the user in the window is at most the number of records, and 0 when none is the user's |
| Scheduler.Tier | src/workers/scheduler.py:122-124 | the closing line: five successes or more, three or more, else encouragement |
| Scheduler.ReportText | src/workers/scheduler.py:121-124 | the report shows the three counts in order, then the tier line |
| Scheduler.ReportMeaning | src/workers/scheduler.py:118-119 | a user with no such record in the window gets nothing |
| Scheduler.ReportedUsersMeaning | src/workers/scheduler.py:104-119 | reports go exactly to users with a tracking flag and an active week |
| Scheduler.ReportedUsersSnoc | src/workers/scheduler.py:111 | one more user adds at most that user |
| Scheduler.ReportMessagesSnoc | src/workers/scheduler.py:126 | one more report is appended at the end |
| Scheduler.RunWeeklyReport | src/workers/scheduler.py:99-128 | the job queues the reports in table order and counts them |
| Scheduler.HoroscopePrompt | src/workers/scheduler.py:32 | the stored prompt, or the default when it is missing or empty |
| Scheduler.WriteEachPerKey | src/workers/scheduler.py:34-41 | with distinct keys, each key holds what its own item wrote, or its old value |
| Scheduler.HoroscopeKeyInjective | src/services/redis.py:70-71 | distinct signs have distinct Redis keys |
| Scheduler.CachedPerSign | src/workers/scheduler.py:34-41 | a failure stays with its sign: each key holds its own sign's text or its old value, and every other key is untouched |
| Scheduler.WrittenDistinct | src/workers/scheduler.py:34-38 | each sign is written at most once |
| Scheduler.SignsDistinct | src/services/horoscope.py:9-13 | the signs of `RUS_SIGNS` are distinct |
| Scheduler.GenerateDailyHoroscopes | src/workers/scheduler.py:29-41 | the job caches each sign's text for a day, skips a failing sign only, and changes nothing else |
| Matching.Seen | src/services/matching.py:35 | the targets the user already voted on |
| Matching.CityOf | src/services/matching.py:22 | the city answer lowered and stripped: no surrounding whitespace and nothing left to lower |
| Matching.FirstQualifying | src/services/matching.py:38-45 | the first row that is a dating profile of someone else not yet rated |
| Matching.Candidate | src/services/matching.py:38-55 | the candidate qualifies, or no row does |
| Matching.OfferFor | src/services/matching.py:19-58 | a dating profile with a candidate gets exactly one offer |
| Matching.Card | src/services/matching.py:61-83 | the card goes to the recipient, shows the candidate's photo and carries the candidate's buttons |
| Matching.Caption | src/services/matching.py:61-67 | the card text: name, age, the recipient's own city and the about text, with the source's defaults |
| Matching.OfferMeaning | src/services/matching.py:35-80 | an offer is someone else's dating profile not yet rated, whose buttons decode to that person; there is none exactly when every other profile is rated |
| Matching.Cards | src/services/matching.py:76-83 | one card per offer, in order |
| Matching.OffersSound | src/services/matching.py:19-58 | every offer comes from one profile of the table, at most one per profile |
| Matching.OffersComplete | src/services/matching.py:19-58 | every profile with a candidate gets its offer |
| Matching.NoCardWhenAllRated | src/services/matching.py:57-58 | someone who rated every other profile gets no card |
| Matching.OffersSnoc | src/services/matching.py:19 | one more profile adds at most its offer |
| Matching.CardsSnoc | src/services/matching.py:83 | one more offer appends its card |
| Matching.RunDailyMatching | src/services/matching.py:8-86 | the job queues one card per offer, in table order, and only reads the tables |
| Matching.RatingRemovesCandidate | src/services/matching.py:35-42 | once the candidate is rated it is not offered again |
| Sheets.Body | src/services/sheets.py:28 | the header row is dropped |
| Sheets.StripAll | src/services/sheets.py:31 | each part is stripped |
| Sheets.OptionsMeaning | src/services/sheets.py:31 | no fifth cell or an empty one gives no options; otherwise one stripped option per comma-separated part, empty ones kept |
| Sheets.Options | src/services/sheets.py:31 | no option holds a comma or has surrounding whitespace, and a row without a non-empty fifth cell has none |
| Sheets.StripIsSlice | src/services/sheets.py:31 | a stripped part holds no comma its part lacked |
| Sheets.MapRows | src/services/sheets.py:28 | one entry per row, in order |
| Sheets.MapRowsAppend | src/services/sheets.py:28 | two blocks of rows give their entries one after the other |
| Sheets.ListOfSound | src/services/sheets.py:33-34 | each listed item was filed under that mode by an earlier entry |
| Sheets.ListOfAppend | src/services/sheets.py:33-34 | lists grow by appending, in sheet order |
| Sheets.LastOfMeaning | src/services/sheets.py:53 | the last filed item wins |
| Sheets.QuestionsForAppend | src/services/sheets.py:33-34 | grouping keeps the sheet's order |
| Sheets.QuestionsForRow | src/services/sheets.py:29-34 | a row gives its question to its stripped mode exactly when it passes the guard |
| Sheets.QuestionsForSound | src/services/sheets.py:29-34 | every question of a mode comes from a kept row with that stripped mode |
| Sheets.QuestionsForComplete | src/services/sheets.py:29-34 | every kept row's question is in its mode's list |
| Sheets.QuestionsFor | src/services/sheets.py:27-34 | the questions the rows file under a mode, in sheet order (stated by `QuestionsForSound` and `QuestionsForComplete`) |
| Sheets.BlankModeRow | src/services/sheets.py:29-30 | a whitespace-only first cell passes the guard and files under the empty mode |
| Sheets.GroupedAppend | src/services/sheets.py:33-34 | appending to the mode's list, created if missing, groups one more row |
| Sheets.GroupedSkip | src/services/sheets.py:29 | a skipped row changes no list |
| Sheets.ParseQuestionRows | src/services/sheets.py:27-34 | the map holds exactly the non-empty lists, each that mode's questions in sheet order |
| Sheets.PromptForMeaning | src/services/sheets.py:50-53 | a mode has a prompt exactly when a kept row has that mode; it is the last such row's stripped text |
| Sheets.PromptFor | src/services/sheets.py:46-53 | the prompt the rows leave for a mode (stated by `PromptForMeaning`) |
| Sheets.LastOfStep | src/services/sheets.py:53 | one more row sets its own mode's prompt and leaves the others |
| Sheets.ParsePromptRows | src/services/sheets.py:46-53 | no worksheet gives no prompts; otherwise each mode maps to its last kept row's prompt |

## Left out

- The aiogram plumbing is left out because it is UI: deleting and editing messages, `safe_delete`, the `TelegramBadRequest` fallback, the help, menu and header texts, the reply keyboards' display options, `show_mode_menu`, `profile.py` and `admin.py`. Dispatch precedence is not modelled either: aiogram hands an update to the first matching handler in registration order, and each handler here is modelled as if it were the one invoked. So while a survey runs, "↩️ Назад" goes to `cancel_survey_text` (src/bot/handlers/survey.py:217) rather than being taken as an answer; "🥦 Диетолог" and "💪 Тренер" go to `show_mode_menu` (:100), "❤️ Найти партнера" to `start_survey_by_text` (:157), and texts containing "Справка", "Натальная карта" or "Астро-прогноз" to the handlers at :77, :133 and :145, none of them to `process_message_answer` (:246).
- RabbitMQ connections, consume loops, `prefetch_count` and `create_task` are left out. `send_to_queue` is an append to a sequence, and the JSON on the wire is `Queues.Encode`.
- Concurrency is left out: a single sequential caller is modelled. The check-then-insert races in tracking and dating are therefore not covered.
- Time is left out. `now`, `today`, the `asyncio.sleep` pauses and APScheduler job registration are not modelled. `now` and `today` are parameters, and a pause is only reported as its length.
- The LLM (`llm.py`, `qwen.py`) is an uninterpreted parameter that returns text. Its failures come back as error strings and are not modelled separately.
- `str.format` is a parameter that may fail (`None`). Its placeholder syntax is not modelled.
- Redis transport errors are left out. `_safe_get` returning `None` on an error is not distinguished from a missing key. A failing `set` is modelled only in the horoscope job, as a parameter.
- Opening the spreadsheet and choosing the prompts worksheet are left out. The loops start from the rows, or from no worksheet.
- `session.py`, `gen_qr.py`, `init_configs.py`, `update_surveys.py` and the observability modules (`logger.py`, `metrics.py`, `alerting.py`) are not part of this model.
- The cleanup's regular expressions are restricted to the patterns it uses. Matching is ASCII case-insensitive on literals and tags; there is no general regex engine or Unicode case folding.
- `User.natal_chart_credits` and `User.has_accepted_policy` are read and written by the survey handlers but are not declared in src/database/models.py. They are assumed columns, defaulting to 0 and false, and nothing in the code grants a credit.
- Access.Decide: src/bot/main.py:131-139 includes the routers and registers `start_handler` but never installs `CheckSubscriptionMiddleware` on messages or callbacks. As the program stands, no update is gated and an expired user reaches every handler. The model states only what the middleware decides when it is called.
- Scheduler.QueueCheckins: the user queries of src/workers/scheduler.py:47-50 and 75-78 have no ORDER BY, so the database chooses the order of the queued check-ins. The model queues them in table order. The proved recipients and count do not depend on that order.
- Scheduler.RunWeeklyReport: the query of src/workers/scheduler.py:104-106 has no ORDER BY either. The reports are queued in table order, and the proved recipients and count do not depend on it.
- Dates.ParseDmy: the `%d`, `%m` and `%Y` fields take only ASCII digits. CPython's `strptime` builds them from `\d` in a str pattern, which also matches other Unicode decimal digits such as Arabic-Indic ones, so such a date parses in Python and is refused here.
- Strings.ParseInt: only ASCII digits are accepted, while Python's `int()` takes any Unicode decimal digit.
- Matching.Candidate: `.limit(1)` without ORDER BY returns an unspecified row. The model takes the first qualifying row in table order.
- Tracking.ByDateDesc: `order_by(desc(date))` leaves the order of equal dates to the database. The model uses a stable insertion order, and the streak lemmas rely only on dates being distinct.
- Matching.RunDailyMatching: the city and gender that src/services/matching.py:22-27 computes influence nothing, so they are not modelled beyond the caption's city.
- The subscription check compares timestamps in whole seconds. Time zones are not modelled.
- `Dates.FormatIso` prints years below 1000 unpadded, as glibc's `%Y` does.
- Strings.Lower: only Latin A-Z and Cyrillic U+0400-U+042F are folded. Other capitals, such as `Ä` or Greek letters, are kept as they are, where Python's `str.lower()` would fold them.
- Survey.FinishSession: the `survey_configs` rows 1 to 5 are assumed to exist. src/scripts/init_configs.py:27-55 seeds only ids 1 to 3, so with that seed a horoscope (4) or natal-chart (5) survey would break the foreign key `survey_config_id` (src/database/models.py:71) at the flush and raise.
- Survey.CancelSurvey: the reply carries the corrected menu. As written both cancel handlers raise in `_get_menu_markup` (src/bot/handlers/survey.py:214 and :224) right after the conversation is dropped (`Survey.CancelAsWrittenRaises`). Even with a working menu, `cancel_survey_callback` answers with empty text (:215), which the Bot API rejects; message texts are not modelled.
- Survey.CancelSurveyHandler: has the effect of the corrected `CancelSurvey`; as written the handler raises after the conversation is dropped (`Survey.CancelAsWrittenRaises`).
- Survey.ProcessConsent: the refusal replies with the corrected menu and the consent finishes with the corrected `FinishSurvey`. As written `_get_menu_markup` raises in both branches (src/bot/handlers/survey.py:358 and, through `_finish_survey`, :378); see `Survey.ConsentAsWrittenRaises`.
- Survey.ProcessConsentHandler: has the effect of the corrected `ProcessConsent`; as written both answers raise after the conversation is dropped (`Survey.ConsentAsWrittenRaises`).
- Survey.ConsentNoWritesNothing: states the corrected reply, `Declined` with the menu. As written the refusal raises at src/bot/handlers/survey.py:358 after the conversation is dropped; the state it leaves is the same (`Survey.ConsentAsWrittenRaises`).
- Tracking.CalculateStreak: the corrected walk compares calendar days. As written the loaded rows carry a `datetime` (src/database/models.py:101); see the tracking finding below.

## Findings

| source | as written | input that shows it | evidently intended | confidence | as-written member | corrected member |
|---|---|---|---|---|---|---|
| src/bot/handlers/survey.py:55 | `_get_menu_markup` calls `get_main_menu(natal_credits=…, is_admin=…)`, but `get_main_menu` (src/bot/keyboards/menu.py:3) accepts only `qr_activations`, so every call raises `TypeError`. `_finish_survey` calls it right after clearing the FSM state, so no survey is ever stored and no task queued. The same call raises in `cancel_survey_callback` (:214), `cancel_survey_text` (:224) and `process_consent` (:358); see the next two rows. | any user finishing any survey, e.g. a diet survey of a consented user | build the main menu from the user's activation count, as `/start` does, then store the survey and dispatch by mode | not executed | Survey.FinishSurveyAsWrittenLosesAnswers | Survey.FinishStoresOneSurvey |
| src/bot/handlers/survey.py:214 | `cancel_survey_callback` (and `cancel_survey_text` at :224) call the same broken `_get_menu_markup` right after `_cleanup_survey` has cleared the FSM state, so cancelling ends the survey and then raises `TypeError`; no menu is shown. | a user pressing the cancel button or "↩️ Назад" during any survey | end the survey and show the main menu built from the activation count | not executed | Survey.CancelAsWrittenRaises | Survey.CancelEndsOnlyThisSurvey |
| src/bot/handlers/survey.py:358 | `process_consent` calls the same `_get_menu_markup` after a refusal, and via `_finish_survey` after a consent, so both answers end the survey and raise; a consent is committed first. | a user answering `consent_no` at the consent step | end the survey and show the main menu; on consent record it and finish | not executed | Survey.ConsentAsWrittenRaises | Survey.ConsentNoWritesNothing |
| src/bot/handlers/dating.py:64 | `session.get(DatingMatch, (user_id, target_user_id))` passes two key values, but the primary key of `DatingMatch` is the single column `id` (src/database/models.py:82), so the call raises before the commit whenever the like is mutual. No match is ever recorded. | user 2 likes user 1 after user 1 liked user 2 | drop the lookup; lines 66-71 already find the row and flag both likes | not executed | Dating.MutualLikeAsWrittenRaises | Dating.LikeMatchesIffMutual |
| src/bot/handlers/tracking.py:52 | `DailyTracking.date` is a `DateTime` column (src/database/models.py:101), so every row loaded from the database holds a `datetime`, and `record.date > check_date` with a `date` raises `TypeError`. Only the freshly inserted row keeps the `date` it was given, because the session does not expire it on commit. The walk therefore raises as soon as it reaches a loaded row: the check-in is committed and the outer `except` answers with the generic failure. | a `success` check-in today by a user who checked in for the same mode yesterday | compare calendar days (`record.date.date()` or a `Date` column), so the streak counts consecutive good days | not executed | Tracking.CheckinAsWrittenFailsOnHistory | Tracking.StreakMeaning |
