# FunPayBot core, modelled in Dafny

FunPayBot connects a FunPay seller account to a Telegram administrator.
This project models its core and proves properties of the model:

- **Marketplace client.** It connects in up to three attempts and keeps a table of event handlers per event kind. A listen loop counts new messages and new orders and means to hand them to those handlers. As written it never manages to: the listener runs on an executor thread, where `asyncio.get_event_loop()` raises, so every hand-over fails quietly after the count. Replies are sent through a retry decorator.
- **Event router.** It passes each event to the message handler or the order handler.
- **Message handler.** It rejects a chat without an id and puts a `[TYPE]` placeholder in place of a message without text. It notifies the administrator, and a failing notification does not stop it.
- **Order handler.** It keys each order by the `#<digits>` id in its description. It handles each key once, records the order in the database and announces it.
- **SQLite store.** It holds the users, messages, orders and templates. Messages are deduplicated by hash, orders are upserted, and template use is counted.
- **Template manager and autoresponder.** They pick the first template whose trigger fires on a text. The autoresponder fills `{time}`, `{date}` and `{datetime}` into the template's response.
- **Outbound delivery queue.** A bounded priority queue feeds a worker. The worker enforces a minimum gap between sends, retries each send, and reports every outcome to the message's callback.
- **Administrator's Telegram bot.** Pressing a `select_chat:<id>` button selects a chat, and the administrator's next message is forwarded to that chat. The bot also answers `/start`, `/help`, `/stats` and `/chats`, sends the notifications and keeps counters.
- **Text and time helpers.** Truncation, sanitising outgoing text, the minute-bucket key behind the message hash, order-id parsing and the "time ago" wording.

There is one module per source file.
`Common` holds two shared things:
- the Option type;
- the outcome of a call into a collaborator: it returned a truthy or falsy value, or it raised.

`Text` holds the parts of Python's `str` the code relies on: `str(int)`, `int(str)`, `lower`, `upper` and substring search.

The core changes state in place, and the model keeps that form.
The queue manager, the client, the bot, the database, the handlers, the template manager and the autoresponder are classes. Their methods change fields named in `modifies` clauses.
The objects are linked as in the program:
- the order handler holds the database and the bot;
- the message handler holds the bot;
- the bot holds the client;
- the template manager holds the database;
- the autoresponder holds the template manager.

Pure parts are functions with lemmas about them. These are the helpers, the first-match search, the placeholder substitution, the listen loop as a fold over its event stream, and the retry attempt count.

Calls into systems the code cannot see are parameters of the model. This covers:
- the FunPay account's `get` and `send_message`;
- the Telegram API;
- the regular-expression engine;
- SHA-256;
- the handlers' coroutines;
- the send callback.

A call that may be repeated is a script from the 1-based attempt number to its outcome. A single call is a flag saying whether it raises.

Time is an integer clock in milliseconds (seconds in `time_ago`, and in the order key), and `asyncio.sleep` advances it.
`datetime.now()` and `strftime` renderings are passed in.

## Model

| member | source | states |
|---|---|---|
| Common.AttemptsSpec | core/queue_manager.py:118-129 | A loop that tries up to `budget` times and stops at the first true result makes at most `budget` attempts. Every attempt before its last failed. It succeeds exactly when some attempt within the budget returns true. When it fails, it has used the whole budget. A raise counts as a failed attempt. |
| Text.ParseInt | core/telegram_bot.py:199 | `int(s)` on an optional sign followed by digits gives their value. Anything else is the ValueError case (None). |
| Text.IntToStrRoundTrip | core/telegram_bot.py:199 | `int(str(i)) == i` for every integer, negatives included. |
| Helpers.SliceTo | utils/helpers.py:17 | Python's `s[:stop]`: a prefix of `s`, of length `stop` when `0 <= stop <= len(s)`. A negative stop counts from the end. |
| Helpers.TruncateText | utils/helpers.py:10-17 | A missing or empty text gives "". A text that fits is returned unchanged. A longer text is its first `max_length - len(suffix)` characters followed by the suffix, exactly `max_length` long when `max_length >= len(suffix)`. |
| Helpers.IndexOf | utils/helpers.py:28 | The first position of a character: it is there and not earlier. None exactly when the character is absent. |
| Helpers.StripTags | utils/helpers.py:28 | Removing `<...>` tags left to right never lengthens the text and adds no character. |
| Helpers.DropSpaces | utils/helpers.py:33 | A suffix of the text that does not start with whitespace. |
| Helpers.CollapseSpaces | utils/helpers.py:30 | After `re.sub(r'\s+', ' ', s)`, every whitespace character is a space and no two whitespace characters are adjacent. |
| Helpers.DropControls | utils/helpers.py:32 | Only characters with code >= 32, `\n` and `\t` are kept, and nothing is added. |
| Helpers.DropTrailingSpaces | utils/helpers.py:33 | A prefix of the text that does not end in whitespace. |
| Helpers.Strip | utils/helpers.py:33 | `strip()`: neither end is whitespace and nothing is added. |
| Helpers.SanitizeForFunPay | utils/helpers.py:22-33 | An empty or missing text gives "". The result has no character with code < 32, because `\n` and `\t` are already spaces when the control filter runs. Neither end is whitespace. |
| Helpers.PrintableAfterCollapse | utils/helpers.py:30-32 | Collapsing whitespace and then filtering control characters leaves only codes >= 32. |
| Helpers.Pad | utils/helpers.py:43 | A `strftime` field: exactly `width` decimal digits. |
| Helpers.MinuteStamp | utils/helpers.py:43 | `%Y%m%d%H%M` is 12 characters. |
| Helpers.MessageHash | utils/helpers.py:38-44 | Any two timestamps in the same calendar minute give the same hash for the same chat and text. |
| Helpers.HashKeyInjective | utils/helpers.py:43 | Two hashed keys are equal exactly when the chat ids, the texts and the calendar minutes are. |
| Helpers.StampInjective | utils/helpers.py:43 | Equal minute stamps of valid datetimes mean the same year, month, day, hour and minute. |
| Helpers.PadValue | utils/helpers.py:43 | A zero-padded field reads back as the number it encodes. |
| Helpers.DigitRun | utils/helpers.py:48 | `\d+` at the front of a text: a maximal run of ASCII digits, non-empty when the text starts with one. |
| Helpers.ParseOrderIdSpec | utils/helpers.py:46-49 | `parse_order_id` gives the whole digit run after the leftmost `#` that is directly followed by an ASCII digit. It gives None exactly when there is no such `#`. |
| Helpers.ParseOrderIdFront | utils/helpers.py:48-49 | A text with a `#`-number and no earlier `#` followed by an ASCII digit yields exactly that number. |
| Helpers.ClassifyAgo | utils/helpers.py:51-66 | A missing time gives "unknown". Under 60 s is "just now". Under an hour is minutes, under a day is hours, and otherwise days, each truncated: `n*60 <= s < n*60+60` and so on. The five cases are exclusive and cover every input. |
| Retry.Delays | utils/retry.py:11-24 | The k-th sleep is `delay * backoff^k` (0-based). |
| Retry.AsyncRetry | utils/retry.py:7-29 | An exception is caught when it is an instance of a listed class, its own class or any base. With `max_attempts <= 0` the wrapped call is never made and the wrapper returns None. Otherwise it makes 1 to `max_attempts` calls, and every call but the last raised a caught exception. A returned value is returned at once. The last exception is re-raised when it is not caught, or when it came on the last attempt. The sleeps are exactly the first `calls - 1` geometric delays, with none after the last call. |
| Retry.DelaysTotal | utils/retry.py:23-24 | The first n sleeps add up to `delay * (backoff^n - 1) / (backoff - 1)`, stated multiplied out. |
| Retry.DoublingTotal | utils/retry.py:7 | With the default backoff of 2, n sleeps total `delay * (2^n - 1)`. |
| QueueManager.NextExists | core/queue_manager.py:83 | A non-empty queue always has a message with the least stored priority for `get()` to hand out. |
| QueueManager.HigherPriorityFirst | core/queue_manager.py:40 | The stored priority is the negated enum value, so while a message of higher enum value is queued, no message of lower value is handed out. |
| QueueManager.PopKeepsOrder | core/queue_manager.py:80-83 | Taking the next message keeps three things: everything taken so far plus what is queued is the original queue, the taken messages are in priority order, and none is ranked after anything still queued. |
| QueueManager.Sleeps | core/queue_manager.py:124 | After n failed attempts the sleeps are `2 s, 4 s, ..., 2n s`; there are n of them. |
| QueueManager.SleepsTotal | core/queue_manager.py:123-128 | The n sleeps add up to `n(n+1)` seconds. |
| QueueManager.RetrySleepTotal | core/queue_manager.py:117-129 | A delivery that made c calls slept `c(c-1)` seconds, with none after the last call. An always-failing send therefore sleeps `2*(1+...+(max_retries-1))` seconds. |
| QueueManager.SendWithRetry | core/queue_manager.py:117-129 | The send callback is called at most `max_retries` times and stops at the first true result. The method returns true exactly when some attempt within the budget returned true; a raise counts as a failed attempt. It sleeps `2*k` s after each failed attempt k except the last. |
| QueueManager.RateWait | core/queue_manager.py:107-115 | The first send waits nothing. A later send waits `max(0, send_delay - elapsed)`, so it goes out at least `send_delay` after the previous one, and exactly then if it had to wait. |
| QueueManager.MessageQueueManager.constructor | core/queue_manager.py:26-34 | An empty queue, zero counters, not running, no last send time. |
| QueueManager.MessageQueueManager.AddMessage | core/queue_manager.py:37-56 | A full queue returns false, counts one more rejection and leaves the queue and `total_queued` alone. Otherwise the message is stored with the negated priority value and empty metadata in place of None. It returns true and counts one more queued message. The queue never exceeds `max_size` when `max_size > 0`. |
| QueueManager.MessageQueueManager.Start | core/queue_manager.py:58-64 | Start while running changes nothing. Otherwise it sets running and creates the worker. |
| QueueManager.MessageQueueManager.Stop | core/queue_manager.py:66-76 | Afterwards the manager is not running. Stop while stopped changes nothing. |
| QueueManager.MessageQueueManager.EnforceRateLimit | core/queue_manager.py:107-115 | The clock advances by the rate wait, and the permitted send is recorded at the new time. Permitted sends are at least `send_delay` apart and `last_send_time` never decreases; this is part of the class invariant. |
| QueueManager.MessageQueueManager.WorkerStep | core/queue_manager.py:78-105 | An empty queue times out after one second with nothing else changed. Otherwise the next message by priority leaves the queue, and each attempt is logged as a send call. Exactly one of `total_sent` and `total_failed` grows. The callback, if present, is called once with the outcome and the metadata. The clock advances by the rate wait plus the retry sleeps. |
| QueueManager.MessageQueueManager.PopNext | core/queue_manager.py:83 | `get()` removes one message with the least stored priority. |
| QueueManager.MessageQueueManager.PopInOrder | core/queue_manager.py:80-83 | One more pop keeps the run of popped messages in priority order. |
| QueueManager.MessageQueueManager.Deliver | core/queue_manager.py:86-100 | Rate limit, send with retries, then count as sent or failed. The callback is called with `(success, metadata)` whether or not it then raises. The rate-limit invariant is kept. |
| QueueManager.MessageQueueManager.Drain | core/queue_manager.py:80-100 | Worker passes with no producer in between take `min(#sends, queue size)` messages. They leave in non-increasing enum value, each exactly once, and each is counted as sent or failed. |
| QueueManager.MessageQueueManager.Stats | core/queue_manager.py:131-132 | The reported queue size is the number queued, and `is_running` is the running flag. |
| FunPay.LiveEvents | core/funpay_client.py:91-94 | The items the loop acts on are events only: those before the first stop or stream error, and none when not running. |
| FunPay.ListenCounts | core/funpay_client.py:91-114 | The listen loop counts exactly the NEW_MESSAGE and NEW_ORDER events it acts on, and other kinds change no counter. It schedules `_trigger_handlers` for exactly the message and order events that were handed to the main loop, in order. |
| FunPay.ListenCountsEvent | core/funpay_client.py:100-114 | The same counts when the next item is an event the running loop acts on. |
| FunPay.StoppedListenerIsIdle | core/funpay_client.py:92-94 | Once running is false, the loop counts and schedules nothing more. |
| FunPay.StopCutsStream | core/funpay_client.py:138 | Nothing after a `stop()` is acted on. |
| FunPay.ListenWithoutHandOver | core/funpay_client.py:100-118 | When no event is handed to the main loop, as in the code as written, the loop still counts every message and order it acts on and schedules no handler. |
| FunPay.FunPayClient.constructor | core/funpay_client.py:20-37 | Not connected, not running, no handlers, zero counters. |
| FunPay.FunPayClient.Connect | core/funpay_client.py:39-69 | It succeeds exactly when one of three attempts completes, and success sets `connected`. It counts one connection error per failed attempt. It sleeps 5 s between attempts but not after the last. A third failure is re-raised with the flags left as they were. |
| FunPay.FunPayClient.RegisterHandler | core/funpay_client.py:71-75 | The handler is appended to its kind's list. Other kinds are unchanged. |
| FunPay.FunPayClient.TriggerHandlers | core/funpay_client.py:78-85 | Exactly the handlers registered for the kind are invoked, in registration order, and a raising handler does not stop the rest. The failures are the raising handlers. A kind with no registrations invokes nothing. |
| FunPay.FunPayClient.ListenLoop | core/funpay_client.py:87-122 | The loop's effect on the client is the fold `Listen` over the iterator's items. |
| FunPay.FunPayClient.StartListening | core/funpay_client.py:124-133 | Not connected raises (false) with nothing changed. Otherwise running is set and the loop runs. |
| FunPay.FunPayClient.Stop | core/funpay_client.py:135-145 | Running and connected are both false afterwards. A failing `runner.stop()` is swallowed. |
| FunPay.FunPayClient.SendMessage | core/funpay_client.py:147-165 | It succeeds exactly when one of three attempts completes, sleeping 2 s and then 4 s between them. A success counts one sent message and hands the account the sanitised text. A failure changes neither. |
| FunPay.FunPayClient.Stats | core/funpay_client.py:167-169 | A value copy of all five counters: messages sent, messages and orders received, connection errors and reconnects. |
| Events.EventHandler.constructor | core/event_handler.py:6-10 | Zero counters. |
| Events.EventHandler.HandleMessage | core/event_handler.py:12-19 | A truthy result counts one handled message. A raise counts one error and propagates nothing. A falsy result counts neither. |
| Events.EventHandler.HandleOrder | core/event_handler.py:21-28 | The same for orders. |
| Events.EventHandler.Stats | core/event_handler.py:30-31 | A value copy of the counters. Each routed event is counted at most once. |
| Store.ActiveOnlyMembers | database/database.py:180-193 | The active-template selection keeps exactly the active rows. |
| Store.Database.constructor | database/database.py:11-14 | No connection yet. |
| Store.Database.Connect | database/database.py:16-27 | A connection exists afterwards. |
| Store.Database.MessageExistsByHash | database/database.py:43-54 | True exactly when a message row carries the hash. A failing lookup (no connection) gives false. |
| Store.Database.AddOrUpdateUser | database/database.py:56-72 | A new user is inserted with zero counters. A known user gets the new username and last-seen time, keeps its counters and returns its id. No connection raises with nothing changed. |
| Store.Database.Credit | database/database.py:91-94 | Incrementing an author's counter touches no other user and adds no user. |
| Store.Database.AddMessage | database/database.py:74-103 | A hash already stored returns None and writes nothing. An insert that would break the UNIQUE hash column is None too. Otherwise one row is appended, its id returned and the author's `total_messages` incremented. No connection raises. The stored hashes stay unique. |
| Store.Database.AddOrder | database/database.py:122-143 | A new order id inserts a "new" order. A known one only has `updated_at` touched, and no row is added. Either way the buyer's `total_orders` is incremented. |
| Store.Database.UpdateOrderStatus | database/database.py:145-151 | Sets the status and `updated_at`. `completed_at` is set only for "completed" and cleared otherwise. An unknown order changes nothing. |
| Store.Database.GetActiveOrders | database/database.py:153-169 | Exactly the orders with status "new" or "active", each once. |
| Store.Database.AddTemplate | database/database.py:171-178 | Appends an active template with zero uses and returns its id. A taken name (UNIQUE) or no connection raises with nothing changed. |
| Store.Database.GetActiveTemplates | database/database.py:180-193 | The active templates, in table order. The query has no ORDER BY, so the model assumes SQLite's rowid scan order. |
| Store.Database.IncrementTemplateUsage | database/database.py:195-200 | The template with the id gains one use and every other row is unchanged. An unknown id changes nothing. |
| Telegram.CallbackData | core/telegram_bot.py:173 | Callback data starts with `select_chat:`. |
| Telegram.SecondField | core/telegram_bot.py:199 | `split(":")[1]` holds no colon. Without a colon it is the IndexError case (None). |
| Telegram.SelectedChat | core/telegram_bot.py:198-199 | Only `select_chat:` data selects a chat. |
| Telegram.CallbackRoundTrip | core/telegram_bot.py:198-200 | The data of a chat's button, parsed as the callback handler parses it, gives back the same integer id. |
| Telegram.ChatButtons | core/telegram_bot.py:165-175 | /chats offers one button for each of the first ten chats: `min(10, #chats)` buttons. |
| Telegram.ChatButtonsSelect | core/telegram_bot.py:166-173 | Pressing the i-th button selects the i-th listed chat. |
| Telegram.MessageNotice | core/telegram_bot.py:259 | The notification is the header with the sender, followed by exactly the first `min(200, len(text))` characters of the text. |
| Telegram.TelegramBot.constructor | core/telegram_bot.py:13-25 | No application, no active chat, zero counters. |
| Telegram.TelegramBot.Start | core/telegram_bot.py:27-65 | The application exists once built. Start succeeds unless a later step raises. |
| Telegram.TelegramBot.Stats | core/telegram_bot.py:297-299 | A value copy of the three counters. |
| Telegram.TelegramBot.Command | core/telegram_bot.py:78-122 | /start and /help count one command each. |
| Telegram.TelegramBot.CmdStats | core/telegram_bot.py:124-142 | Counts one command first, so the report includes it. A chat is reported as active only when it is truthy. |
| Telegram.TelegramBot.CmdChats | core/telegram_bot.py:144-190 | Counts one command. Without a client or an account it says so. A failing `get_chats` is reported, and no chats is reported. Otherwise the reply is the keyboard of the first ten chats. |
| Telegram.TelegramBot.HandleCallback | core/telegram_bot.py:192-210 | A `select_chat:` callback with an integer id makes that chat active. A malformed id, any other data or a failed answer leaves the selection alone. |
| Telegram.TelegramBot.HandleMessage | core/telegram_bot.py:212-250 | Text is forwarded exactly when a truthy chat is selected, a client is wired and the client's send succeeds. Forwarding puts the sanitised text in the client's outbox for that chat, counts one message sent by the client and one reply. A failed send leaves the client's outbox and send counter alone. Only those two fields and the client's clock (advanced by the retry sleeps) may change in the client. It clears the selection once the confirmation goes out. A failed send changes neither the counter nor the selection. With no selection nothing is sent. |
| Telegram.TelegramBot.SendMessageNotification | core/telegram_bot.py:252-277 | Before the application exists nothing happens. Otherwise, if the API accepts it, the notice with a reply button for the chat is sent and counted. Failures are swallowed. |
| Telegram.TelegramBot.SendOrderNotification | core/telegram_bot.py:279-295 | The same for order notices, with "не указана" as the price and no button. |
| Orders.OrderKey | handlers/order_handler.py:16-18 | The id parsed from the description, else `order_<unix seconds>`. |
| Orders.FallbackKeysAreDistinct | handlers/order_handler.py:16-18 | A fallback key never equals an id parsed from a description: ids start with a digit. |
| Orders.OrderHandler.constructor | handlers/order_handler.py:8-12 | Nothing processed yet. |
| Orders.OrderHandler.Handle | handlers/order_handler.py:14-47 | The processed set only grows, by the order's key. A key already processed returns false with no database or notification effect. A new key is marked before any database call, so it stays marked when the database raises and false is returned. On success the order's key is in the orders table. Exactly one order notice reaches the bot when one is wired and accepts it. |
| Messages.Placeholder | handlers/message_handler.py:53-55 | `[` + the upper-cased type + `]`, or `[UNKNOWN]` without a type. |
| Messages.DisplayText | handlers/message_handler.py:53-55 | A non-empty text is kept, and a missing or empty one becomes the placeholder; it is never empty. |
| Messages.MessageHandler.constructor | handlers/message_handler.py:12-22 | Zero counters. |
| Messages.MessageHandler.Stats | handlers/message_handler.py:99-101 | A value copy of the counters. |
| Messages.MessageHandler.Handle | handlers/message_handler.py:24-97 | It succeeds exactly when the chat id is truthy and the text is usable. A falsy id (0 included) returns false with no notification and no counter change. An unusable text counts one error and returns false. A failing notification does not stop handling. A success counts one processed message. |
| Templates.FirstMatch | autoresponder/templates.py:25-35 | A result is a cached template that fires. |
| Templates.FirstMatchSpec | autoresponder/templates.py:25-35 | None exactly when no cached template fires. Otherwise the earliest template, in cache order, whose lowercased trigger occurs in the lowercased text or whose `^` trigger the regex search finds. |
| Templates.EmptyTriggerFires | autoresponder/templates.py:27 | An empty trigger fires on every text. |
| Templates.TemplateManager.constructor | autoresponder/templates.py:8-12 | An empty cache, never updated. |
| Templates.TemplateManager.ReloadTemplates | autoresponder/templates.py:14-20 | The cache becomes the active templates. A failed read is swallowed and changes nothing. |
| Templates.TemplateManager.Scan | autoresponder/templates.py:25-35 | The loop returns the first match, skipping a trigger the regex engine rejects. |
| Templates.TemplateManager.FindMatchingTemplate | autoresponder/templates.py:22-35 | The cache is reloaded only when empty, and the result is the first match over the cache. |
| Templates.TemplateManager.AddTemplate | autoresponder/templates.py:37-44 | A stored template reloads the cache and returns the new id. A store error returns None with nothing changed. |
| Responder.ReplaceSkipsPlain | autoresponder/autoresponder.py:38 | `str.replace` of a `{`-pattern passes brace-free text through unchanged. |
| Responder.ReplaceAtName | autoresponder/autoresponder.py:38 | An occurrence at the front is replaced. |
| Responder.ReplaceSkipsName | autoresponder/autoresponder.py:38 | Replacing one variable name leaves the other two names intact. |
| Responder.ReplaceStep | autoresponder/autoresponder.py:37-38 | Each replacement in the dictionary's order fills exactly its own slot. |
| Responder.ProcessVariablesFills | autoresponder/autoresponder.py:30-39 | For a template whose literal text has no `{`, every `{time}`, `{date}` and `{datetime}` slot is replaced by its rendering of the clock. |
| Responder.ReplaceAbsent | autoresponder/autoresponder.py:38 | `str.replace` returns a text in which the pattern does not occur unchanged. |
| Responder.PlainTextUnchanged | autoresponder/autoresponder.py:30-39 | A text in which none of `{time}`, `{date}` and `{datetime}` occurs is returned unchanged, whatever other braces it holds. |
| Responder.AutoResponder.constructor | autoresponder/autoresponder.py:7-11 | Zero counters and the given flag. |
| Responder.AutoResponder.GetResponse | autoresponder/autoresponder.py:13-28 | Disabled returns None without consulting the templates. No match returns None and changes no counter. A match counts as matched and records one use. Its response, with the variables filled in, is then counted and returned. A raising usage update gives None. Responses never outnumber matches. |
| Responder.AutoResponder.Enable | autoresponder/autoresponder.py:41-43 | Enabled afterwards. |
| Responder.AutoResponder.Disable | autoresponder/autoresponder.py:45-47 | Disabled afterwards. |
| Responder.AutoResponder.Stats | autoresponder/autoresponder.py:49-50 | The counters and the flag; responses never exceed matches. |

## Left out

- Threads and asyncio scheduling are sequential steps in the model:
  - the executor thread of the listen loop, and `run_coroutine_threadsafe`. A flag on each event says whether handing it over worked. In the code as written the flag is always false, because the executor thread has no event loop for `asyncio.get_event_loop()` to return (`FunPay.ListenWithoutHandOver`); the flag also lets the model describe a loop that was given the main loop;
  - the worker task's creation and cancellation;
  - the one-second `wait_for` timeout, which is one clock step of an empty pass.
- The worker's outer `except Exception` with its one-second sleep is not modelled. In the model nothing inside a worker pass raises: send failures are caught in `_send_with_retry`, and callback failures are caught around the call.
- The FunPay and Telegram SDKs and SQLite are left out: `Account`, `Runner`, `Application`, keyboards and replies, PRAGMAs, `executescript`, `initialize` and `disconnect`. Their calls are parameters that return, fail or raise.
- Database errors other than a connection that was never opened are not modelled: a locked database, a full disk and so on.
- Store.Database.GetActiveOrders: does not state the `ORDER BY created_at DESC` order, because the creation time is not modelled.
- `get_chat_messages` is not modelled, because no core caller uses it. The `message_hashes` table is not modelled, because nothing reads it.
- Store.Database.AddOrder: the price column is not modelled, because its only caller passes None.
- Messages.MessageHandler.Handle: does not model the guarded `save_message` branch. The repository's `Database` has no such method, so the guard is always false.
- Text.ParseInt: accepts only an optional sign and ASCII digits. Python's `int()` also accepts surrounding whitespace, underscores and non-ASCII digits.
- Helpers.DigitRun: `\d` is the ASCII digits. Python's `\d` on a `str` also matches every other Unicode decimal digit, such as Arabic-Indic digits.
- Helpers.ParseOrderIdSpec: an id written in non-ASCII decimal digits (`#٣٤`) gives None in the model, where the source returns those digits.
- Helpers.ParseOrderIdFront: "nothing id-like before it" does not count a `#` followed by a non-ASCII decimal digit, which the source would match first.
- Helpers.CollapseSpaces: `\s` is the ASCII whitespace set. Unicode whitespace and Unicode case mapping (in `lower`/`upper`) are not modelled.
- The encoding-error fallback branches of `truncate_text` and `sanitize_for_funpay` are not modelled. `escape_html` (`html.escape`) is not modelled.
- Helpers.MessageHash: SHA-256 is a parameter, so the model does not show that different keys give different hashes.
- Helpers.ClassifyAgo: works on whole seconds where the source divides floats. `timedelta.total_seconds()` is not modelled.
- QueueManager.RateWait: the model clock only moves forward. The source reads the naive local `datetime.now()`, so after a clock step back (a daylight-saving change or an NTP correction) the elapsed time is negative and the worker sleeps longer than `send_delay`, about an hour after a daylight-saving change. The model cannot show that stall.
- Responder.ProcessVariablesFills: proved only for templates whose literal text holds no `{`. A literal that itself contains a placeholder name, or pieces of one split across a slot, is not covered. A text with no placeholder at all is covered, whatever its braces, by `Responder.PlainTextUnchanged`.
- Floats are integers in the model: `send_delay`, the retry `delay` and `backoff`, and every sleep are integer milliseconds. The retry `backoff` is an integer factor.
- Telegram.TelegramBot.CmdChats: a chat without an `id` attribute (the `str(chat)` fallback) is not modelled; every listed chat has an integer id. The texts of the command replies are not modelled.
- Telegram.TelegramBot.Start: does not model the notification sent to the administrator at start-up. The bot's `stop` is SDK shutdown only and is not modelled.
- FunPay.FunPayClient.Connect: the re-raise after the third failure is a false result. `reconnects` is never incremented by the code; the model keeps it at 0.
- The reconnect backoff and the watchdog exist only as configuration, and nothing reads them, so they are not modelled. The same goes for echo suppression, and for a FIFO tiebreak among equal priorities: the queue is a multiset, and equal priorities leave in an unspecified order.
- QueueManager.MessageQueueManager.Start: the worker task is a flag, and the send callback it is given is passed to each worker step instead.
- bot.py (wiring and shutdown), config.py and utils/logger.py are not part of this model, nor is any log output.
