# RayaPrime bot: a Dafny model

This project models the state handling of the two variants of the "Рая Прайм"
Telegram assistant.

**`oop.py`, the Anthropic-backed `RayaPrimeBot`.**
- The access list: `/start` adds the user if absent.
- The per-user chat history. It is cut to the last 20 turns before each model call. The reply is appended after the cut.
- `extract_event`: the greedy `\{.*\}` span, a JSON oracle and the `found` check.
- The single pending event offered with a button.
- The Gmail scan with its keyword filter and the stored batch of found events.
- The preview of the first five found events.
- `button_callback`: bulk creation with its `created` counter, and the single confirm.
- `GoogleServices.create_event` as a function of the connection flag, the ISO parser oracle and the insert outcome.

**`oop.py.py`, the Groq-backed variant.**
- The global `memory` dict. It is seeded lazily with one system turn that carries the time. A user turn is appended on every call, and an assistant turn is appended only on status 200 with a readable answer.
- The three kinds of reply.
- The `handle` guard for messages without text.

Everything outside the process is a parameter of the operation that uses it:
- the outcome of every model call and HTTP request;
- the Gmail search result;
- `json.loads`;
- `datetime.fromisoformat`;
- the outcome of each calendar insert;
- `str.lower`;
- the formatted clock.

Files:
- `common.dfy`: Option, user ids, truthiness, sequence vocabulary.
- `extraction.dfy`: span finding and `extract_event`.
- `calendar.dfy`: `create_event`.
- `history.dfy`: the 20-turn history and its replay over a sequence of exchanges.
- `raya_bot.dfy`: the bot class and its handlers.
- `groq_bot.dfy`: the second variant.

Facts about the code that the model keeps:
- The comment at `oop.py:378` speaks of 10 messages. The code keeps 20, and so does the model.
- The pattern `\{.*\}` is greedy and not brace-balanced: it runs from the first `{` to the last `}`.
- A pending event is never cleared, neither after a confirm nor after a failure.
- Dates and times are not validated: any truthy string is accepted, and a bad one makes `fromisoformat` fail inside `create_event`.
- A JSON `null` title is not a missing one. `event['title']` raises KeyError only when the key is absent; a null title reaches the button text and the preview as `None`, and reaches `create_event` as `None`.

## Model

| member | source | states |
|---|---|---|
| Extraction.FirstIndexOf | oop.py:450 | the position returned holds `c` and no earlier position does; None exactly when `c` does not occur |
| Extraction.LastIndexOf | oop.py:450 | the position returned holds `c` and no later position does; None exactly when `c` does not occur |
| Extraction.FindSpan | oop.py:450 | a found span opens with `{`, closes with `}` and holds at least two characters |
| Extraction.FindSpanIsSearch | oop.py:450-452 | the span finder returns nothing exactly when `\{.*\}` matches nowhere, and otherwise the leftmost-longest match of the regular-expression search |
| Extraction.SearchResultUnique | oop.py:450 | the leftmost-longest match is unique |
| Extraction.Shown | oop.py:289 | a present JSON value as an f-string shows it: `None` for null, the string itself otherwise |
| Extraction.ShownOr | oop.py:290 | `ev.get(k, '?')` as shown: the default for a missing key, `None` for null, the string otherwise |
| Extraction.Passed | oop.py:479-484 | a present JSON value as the Python object passed on: None exactly for null |
| Extraction.ExtractEvent | oop.py:449-459 | an event is returned iff the model answered, a span exists, it parses and its `found` is truthy; the event is the parsed object; every failure is None |
| Calendar.DurationOrDefault | oop.py:483 | a missing duration becomes 60 minutes; a present one is kept |
| Calendar.GoogleServices.PlannedBody | oop.py:129-149 | a body is built iff connected, the ISO start parses, the duration is valid and the end lies within the `datetime` range; it carries the title as passed (None for null), start, end = start + duration, the Moscow time zone and popups at 30 and 10 minutes |
| Calendar.GoogleServices.CreateEvent | oop.py:129-154 | True iff a body was built and the remote insert succeeded; never True when not connected |
| History.LastN | oop.py:380 | the result is a suffix of the input of length min(len, n) |
| History.Trim | oop.py:378-380 | at most 20 turns, a suffix of the input in order; a history of at most 20 is left alone |
| History.SentHistory | oop.py:372-380 | the history sent has at most 20 turns, ends with the current message, is a suffix of stored + message, and is all of it when fewer than 20 were stored |
| History.SentIsLastOfConversation | oop.py:373-396 | when the stored history is a whole conversation or a tail of at least 19 turns, the history sent is the last 20 turns of the conversation plus the message |
| History.StoreExchange | oop.py:368-405 | the stored history is the sent one, plus exactly one more turn, the reply, when there is one; it holds at most 21 turns |
| History.ReplayStep | oop.py:368-405 | replaying one more exchange is one `StoreExchange` step on the earlier replay |
| History.ReplayIsTail | oop.py:368-405 | after any sequence of exchanges the stored history is a suffix of the whole conversation, at most 21 turns, and either the whole conversation or at least its last 20 turns |
| History.SentIsRecent | oop.py:373-396 | after any sequence of exchanges the history sent with the next message is exactly the last 20 turns of the whole conversation including that message |
| RayaPrime.AddAllowed | oop.py:199-202 | the list is unchanged when the user is already in it and gets the user appended otherwise; membership is the old list plus the user; no duplicates are introduced |
| RayaPrime.AddAllowedIdempotent | oop.py:200-202 | a second `/start` from the same user changes nothing |
| RayaPrime.OfferCallbackData | oop.py:414 | the button's callback data starts with `create_event_` and is neither `create_all` nor `show_calendar`, so a press always reaches the confirm branch |
| RayaPrime.ConfirmPending | oop.py:493-504 | success iff a pending event exists, the Google object exists and `create_event` on the pending event (a null title passed as None) returns True; it reports the title as shown; a missing Google object with a pending event raises |
| RayaPrime.StoredReply | oop.py:399-405 | the reply stored in the history is present iff the model call succeeded, and is its text |
| RayaPrime.Offer | oop.py:407-422 | the pending event is replaced iff the event has a truthy date and time and a `title` key (a null title is kept and shown as `None`), with a button whose callback encodes date and time; a missing `title` key is an AI error; otherwise the plain reply and no change |
| RayaPrime.CountCreatedBounds | oop.py:473-487 | `created` is at most the number of items with date and time, which is at most the batch size; zero without a connection |
| RayaPrime.AllInsertsSucceed | oop.py:475-485 | when every insert succeeds and every item with date and time has a `title` key and a buildable body, every such item is created |
| RayaPrime.CreateAll | oop.py:473-487 | the loop raises iff some attempted item meets no Google object or has no `title` key; otherwise `created` is the count of items with date and time whose `create_event` returned True, a null title passed as None |
| RayaPrime.ScanEmails | oop.py:268-283 | the loop computes `Scan` (the found list) and `Analysed` (the positions extraction runs on) |
| RayaPrime.AnalysedExactly | oop.py:270-276 | extraction runs exactly on the emails whose lowered text contains a keyword, each once, in source order |
| RayaPrime.ScanOrigins | oop.py:268-283 | the found list holds, in source order, exactly the analysed emails whose extraction returned an event, each with that event |
| RayaPrime.Preview | oop.py:284-291 | the preview lists the first min(n, 5) found events numbered from 1 with the shown title, date and time (`?` for a missing date or time key, `None` for a null) and the first 40 characters of the sender; it fails iff one of them has no `title` key |
| RayaPrime.PreviewFrom | oop.py:287-291 | the same, from a given position of the first five: shown title, date and time, first 40 characters of the sender, failure iff some title key is missing |
| RayaPrime.RecordStep | oop.py:368-405 | appending the user turn, cutting to 20, storing and appending the reply is one `StoreExchange` step on the user's history |
| RayaPrime.StoreKeepsBounded | oop.py:368-405 | storing a history of at most 21 turns for an authorized user keeps all histories bounded and authorized |
| RayaPrime.RayaPrimeBot.constructor | oop.py:160-170 | the loaded access list and keywords, no histories, no pending event, no batch |
| RayaPrime.RayaPrimeBot.StartCommand | oop.py:195-202 | the access list becomes `AddAllowed` of the old one |
| RayaPrime.RayaPrimeBot.MessageHandler | oop.py:359-426 | an unauthorized user is denied and nothing changes; otherwise the history sent is `SentHistory`, the stored history becomes `StoreExchange` of the old one, a failed call is an AI error with the pending event untouched, and a reply follows `Offer`; histories stay bounded and pending events offerable |
| RayaPrime.RayaPrimeBot.Respond | oop.py:368-426 | the authorized path of the handler, with the same history, failure and offer rules |
| RayaPrime.RayaPrimeBot.RecordExchange | oop.py:368-405 | the history part of the handler: returns the sent history and stores one `StoreExchange` step, only for this user |
| RayaPrime.RayaPrimeBot.OfferEvent | oop.py:407-422 | the pending event map changes exactly as `Offer` says, only for this user |
| RayaPrime.RayaPrimeBot.GmailCommand | oop.py:247-305 | denial, not connected and no mail replies in that order; then, with `Scan` the found list: no events iff it is empty, a crash iff its preview fails, and otherwise the reply is its size and preview and the user's batch becomes the whole list; without that reply the batch is unchanged |
| RayaPrime.RayaPrimeBot.ButtonCallback | oop.py:461-504 | `create_all` with no batch reports no events, otherwise `CreateAll` over the stored batch; `show_calendar` loads; `create_event_...` is `ConfirmPending` on the stored pending event; no state changes |
| GroqBot.SystemLogic | oop.py.py:19 | the system instruction is the fixed prefix, then the time at its offset, then the fixed suffix right after it |
| GroqBot.Decimal | oop.py.py:41 | `str` of a status: non-empty decimal digits with no leading zero |
| GroqBot.DecimalRoundTrip | oop.py.py:41 | reading the decimal text back gives the status received |
| GroqBot.ResponseText | oop.py.py:36-43 | the answer on status 200 with a readable body; `Ошибка ядра (Status: n)` for any other status; `Сбой связи: e` for an exception, including one raised while reading a 200 response |
| GroqBot.SentMessages | oop.py.py:21-28 | the first call sends the system turn and the user turn; a later one sends the stored history plus the user turn with name and text; one system turn first and no other is kept |
| GroqBot.Remembered | oop.py.py:21-40 | the history after a call is the messages sent plus the answer iff one was read; it grows by exactly 2 or 1, keeps the earlier history as a prefix and keeps the single leading system turn |
| GroqBot.HistoryCounts | oop.py.py:13-43 | after any sequence of calls the history has exactly one system turn, first, one user turn per call, one assistant turn per answered call, so its length is 1 + calls + answers |
| GroqBot.HistoryGrows | oop.py.py:13-43 | every earlier history is a prefix of every later one: nothing is ever trimmed |
| GroqBot.RayaMemory.constructor | oop.py.py:13 | the memory starts empty |
| GroqBot.RayaMemory.GetRayaResponse | oop.py.py:15-43 | the messages sent are `SentMessages`, only the caller's entry changes and becomes `Remembered`, the reply is `ResponseText`; every history keeps one leading system turn |
| GroqBot.RayaMemory.Handle | oop.py.py:45-50 | a message without text (None or empty) gives no reply and no change; any other is answered by `GetRayaResponse` |

## Left out

- Telegram and aiogram transport are not modelled: sending and editing messages, chat actions, `query.answer()` and the inline keyboard objects. Replies are datatypes or strings, and a button is its title and callback data.
- The Anthropic and Groq HTTP calls are oracle inputs (`AiOutcome`, `HttpOutcome`). The model cannot observe them.
- `json.loads` is an oracle from the span to the parsed event. A non-object value counts as a parse failure, because `.get` on it raises and the error is caught. The `title`, `date` and `time` keys are reduced to missing, null or a string. A number or another JSON type in them is not modelled. `duration` is reduced to missing, a whole number of minutes, or a value `timedelta` rejects.
- Google OAuth, the token file, `build`, and the Gmail and Calendar API requests are left out as foreign I/O. `connected` is a flag. `search_gmail` is reduced to its result list, where a failure reads as the empty list.
- `load_config` and `save_config` file I/O are left out. Only the in-memory access list and keywords are modelled.
- `datetime.now`, `utcnow`, `fromisoformat`, time zones and `strftime` are parameters: an ISO parser oracle yielding minutes, and the already formatted clock string.
- `str.lower` is a given function, because Unicode case mapping is outside the model.
- Logging, `run`, `main` and the banners are not modelled.
- Every handler is modelled as one atomic step. For `oop.py` this matches the code. The `Application` is built without `concurrent_updates` (`oop.py:508`), so it handles one update at a time. Within `message_handler`, nothing is awaited between the user-turn append (`:373`) and the reply append (`:402`), because `messages.create` is a synchronous call.
- GroqBot.RayaMemory.GetRayaResponse: aiogram runs handlers as concurrent tasks, and `get_raya_response` awaits the request (`oop.py.py:35`, `37`) between the user-turn append (`:24`) and the answer append (`:39`). Two quick messages from one user can therefore store `[system, u1, u2, a1, a2]`. The model does not capture this interleaving. Its one-call contract, and the per-user counts in `HistoryCounts`, describe calls that do not overlap.
- `calendar_command`, `help_command` and `auto_command` are left out. They list calendar events through the API, send fixed text, or only call `gmail_command`. The `show_calendar` button is modelled; it only edits the text.
- The prompt texts and the welcome text are fixed strings sent to the transport or the oracles, and are not modelled.
- RayaPrime.CreateAll: when the loop raises after some inserts, the events already created stay in the remote calendar. The model reports only the crash.
- RayaPrime.RayaPrimeBot.MessageHandler: "the stored history is the replay of the user's exchanges" is not a class invariant. The handler's contract states one `StoreExchange` step on the old history. What follows over any sequence of messages is proved on values by `History.ReplayStep`, `History.ReplayIsTail` and `History.SentIsRecent`.
- RayaPrime.RayaPrimeBot.ButtonCallback: the single confirm takes its insert outcome from `inserted(0)`. The batch and the confirm share one oracle parameter.
