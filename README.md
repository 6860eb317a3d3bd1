# Support-ticket intake bot, modelled in Dafny

`bot.py` is a Telegram bot that walks a user through a short dialogue (name,
office place, problem description, optional photo), then stores a ticket in
an in-memory table and posts a card for it to an operators' channel. This
project models that core:

- the per-user `context.user_data` dictionary, with its `step` tag and draft
  fields (`Model.Draft`);
- the global `tickets` dictionary (`Model.State`);
- the four handlers and `create_ticket`, each as a pure reference function in
  `Handlers` (state before, update → state after, calls made, exception that
  escaped);
- the same handlers as methods of the class `Service.Bot`, whose fields are
  updated in place in the order the source updates them, each proved to end
  in exactly the state and calls its reference function describes;
- the card text, the author link and the confirmation text (`Card`), with
  readers that recover the ticket number and the author id from them, and
  Python's `str` of an integer (`Decimal`);
- runs of many updates (`Traces`), with the invariants every run keeps and
  the two ways of submitting a ticket worked out end to end.

Transport calls (`reply_text`, `send_photo`, `send_message`,
`query.answer`, `edit_message_text`) are abstract `Model.Output` values, in
the order the handler makes them. An exception is a `Model.Fault`:
`KeyError(key)` for a missing draft field, and `NoMessage` for the
`AttributeError` raised by `update.message.reply_text` when `update.message`
is None.

Two behaviours of the code as written are kept as written:

- On the `skip_photo` path `create_ticket` runs from a button press. Such an
  update has no `message`, so the confirmation at bot.py:129 raises after the
  ticket is stored and the card is posted, and `user_data.clear()` at
  bot.py:130 is never reached. The draft stays complete. A second press files
  a second identical ticket (`Traces.SkipTwiceStoresTwice`).
- On the photo path the `except` at bot.py:71-72 turns a failure of
  `create_ticket` into a reply. The `photo_id` already stored stays in the
  draft, and a later registration that skips the photo files the ticket with
  that stale photo (`Traces.StalePhotoIsFiled`).

## Model

| member | source | states |
|---|---|---|
| Decimal.NatToString | bot.py:104 | the decimal text of a ticket number is non-empty, all digits, and has no leading zero unless the number is 0 |
| Decimal.IntToString | bot.py:111 | `str` of an integer is non-empty and starts with `-` exactly for a negative integer |
| Decimal.ParseNatToString | bot.py:104 | reading back the decimal text of a number gives that number |
| Decimal.NatToStringInjective | bot.py:104 | different numbers have different decimal texts |
| Decimal.ParseIntToString | bot.py:111 | reading back `str` of an integer, sign included, gives that integer |
| Model.InsertNextKeepsDense | bot.py:94-95 | on a table whose keys are exactly 1..n, inserting at `len(tickets) + 1` uses a fresh key, changes no stored ticket, and leaves keys 1..n+1 |
| Card.ChannelPost | bot.py:104-127 | the post is a photo with caption exactly when the ticket's `photo` is truthy (set and non-empty), with that photo. Otherwise it is a text message. Both kinds carry the card text and the author button |
| Card.ChannelPostReadsBack | bot.py:104-127 | from either kind of post, the ticket number can be read back from the card's first line and the author's user id from the button's `tg://user?id=` link |
| Card.CardIdOfCardText | bot.py:104-107 | the first line of the card is the header followed by the ticket number, and it reads back as that number |
| Card.LinkUserIdOfAuthorLink | bot.py:111 | the author link reads back as the author's user id |
| Card.CardText | bot.py:104-107 | the card f-string: the header and number line, then the author, place and description lines. It has no contract of its own; `Card.CardIdOfCardText` states what it promises |
| Card.Confirmation | bot.py:129 | the confirmation f-string. It has no contract of its own; `Card.ConfirmationIdOfConfirmation` states what it promises |
| Card.ConfirmationIdOfConfirmation | bot.py:129 | the confirmation has the fixed head and tail around the ticket number, and it reads back as that number |
| Card.CardsOfDistinctIdsDiffer | bot.py:94-129 | cards of tickets with different numbers are different texts, and so are their confirmations |
| Handlers.OnStart | bot.py:23-25 | `/start` replies with the welcome prompt and sets the step to "name" from any prior step. It keeps name, place, problem and photo id, and touches no ticket |
| Handlers.OnText | bot.py:29-52 | "name": stores the text as the name, moves to "place". "place": stores it as the place, moves to "problem". "problem": overwrites the problem, stays in "problem", offers the two photo buttons. Any other step changes no state and sends only the fallback reply. No ticket is stored and no card is posted |
| Handlers.NewTicket | bot.py:95-102 | the record copies name to user, place to place, problem to desc and photo id to photo (absent stays None). Its status is "Новая" and its user id is the sender |
| Handlers.FirstMissingKey | bot.py:96-98 | the key the dict literal fails on: "name" when the name is missing, else "place" when the place is missing, else "problem" |
| Handlers.FaultText | bot.py:71-72 | `str(e)` of a KeyError is its key between single quotes |
| Handlers.CreateTicket | bot.py:93-130 | with a draft field missing: raises exactly `KeyError(FirstMissingKey)`. Nothing is stored or sent. Otherwise: stores `NewTicket` under `len(tickets) + 1`, posts its card, then from a message confirms to the author and clears the draft. From a button press it raises because there is no message, and the draft is kept |
| Handlers.SavePhotoAndCreate | bot.py:61-72 | never raises. With a complete draft: the ticket is stored with the photo's file id, card and confirmation go out, and the draft is cleared. Otherwise: the draft keeps the new photo id, nothing is stored, and the only call is the reply "Ошибка при обработке фото: " followed by the quoted first missing key |
| Handlers.OnPhoto | bot.py:57-74 | only in step "waiting_photo" with a non-empty photo list does it go on, using the last size's file id. Otherwise it changes no state and sends only the corrective reply |
| Handlers.OnButton | bot.py:78-87 | always answers the callback first. "add_photo" sets the step to "waiting_photo", changes nothing else and edits the message. "skip_photo" runs `create_ticket` from a callback. Any other data changes nothing |
| Handlers.AddPhotoThenPhoto | bot.py:57-87 | from a complete draft, "add_photo" then a photo stores the ticket with the last size's file id, posts the card, confirms, and clears the draft |
| Handlers.CreateTicketKeepsTable | bot.py:93-130 | `create_ticket` changes no other user's draft. On a dense table it uses a fresh number, keeps the table dense, changes no stored ticket, and stores one ticket per card posted |
| Handlers.StartKeepsTable | bot.py:23-25 | `/start` keeps every other user's draft and the table |
| Handlers.TextKeepsTable | bot.py:29-52 | text keeps every other user's draft and the table |
| Handlers.PhotoKeepsTable | bot.py:57-74 | a photo changes only its sender's draft and adds at most one ticket, at the next number, per card posted |
| Handlers.ButtonKeepsTable | bot.py:78-87 | a button press changes only its sender's draft and adds at most one ticket, at the next number, per card posted |
| Handlers.Handle | bot.py:135-138 | each update goes to the handler registered for its kind. An exception escapes only from a "skip_photo" press, because `photo_handler` catches its own and the other handlers raise none |
| Handlers.HandleKeepsTable | bot.py:135-138 | whatever update the registered handlers receive, only the sender's draft changes and at most one card is posted. On a dense table the table stays dense, no stored ticket changes, and its size grows by the number of cards posted |
| Service.Bot.constructor | bot.py:13 | the bot starts with an empty ticket table and no user data |
| Service.Bot.Start | bot.py:23-25 | the in-place handler ends in the state and calls `Handlers.OnStart` gives, and keeps the table dense |
| Service.Bot.TextHandler | bot.py:29-52 | the in-place handler ends in the state and calls `Handlers.OnText` gives, and keeps the table dense |
| Service.Bot.PhotoHandler | bot.py:57-74 | the in-place handler ends in the state and calls `Handlers.OnPhoto` gives, and keeps the table dense |
| Service.Bot.SavePhotoAndCreate | bot.py:61-72 | the `try` block in place ends as `Handlers.SavePhotoAndCreate` gives |
| Service.Bot.ButtonHandler | bot.py:78-87 | the in-place handler ends in the state, calls and escaping exception that `Handlers.OnButton` gives |
| Service.Bot.CreateTicket | bot.py:93-130 | the in-place `create_ticket` ends in the state, calls and exception that `Handlers.CreateTicket` gives, and keeps the table dense |
| Service.Bot.Dispatch | bot.py:135-138 | routing an update to its registered handler ends as the reference dispatch gives |
| Traces.RunAppend | bot.py:135-141 | handling `a` then `b` is handling `a + b`. An escaping exception does not stop later updates |
| Traces.RunKeepsTable | bot.py:94-102 | over any sequence of updates a dense table stays dense, no stored ticket changes, and the table grows by the number of cards posted |
| Traces.Reachable | bot.py:13 | from start-up the ticket numbers are exactly 1..n, n being the number of cards posted |
| Traces.RunLeavesOthers | bot.py:29-30 | updates from other users never change a user's draft |
| Traces.LastProblemTextWins | bot.py:43-49 | in step "problem" a series of texts leaves the last one as the description and stores no ticket |
| Traces.Register | bot.py:23-49 | `/start`, name, place, description: the draft holds the three texts in step "problem", and the four replies are sent in order |
| Traces.SkipFiles | bot.py:86-127 | from a complete draft "skip_photo" stores the ticket under the next number, posts its card and keeps the draft, which is not cleared |
| Traces.SubmitWithoutPhoto | bot.py:23-127 | the whole dialogue with "skip_photo" stores the ticket with the texts sent and posts its card. No confirmation is sent and the draft is not cleared |
| Traces.AttachPhoto | bot.py:57-87 | from a complete draft "add_photo" then a photo stores the ticket with the last size's file id and clears the draft |
| Traces.SubmitWithPhoto | bot.py:23-130 | the whole dialogue with a photo stores the ticket with the last size's file id and posts a photo card (for a non-empty id). The author gets the confirmation, the draft is cleared, and the calls come out in order |
| Traces.SkipTwiceStoresTwice | bot.py:86-130 | pressing "skip_photo" twice stores two identical tickets under the next two numbers and posts two cards |
| Traces.StalePhotoIsFiled | bot.py:60-72 | a photo sent after a stale "add_photo" without a registration stays in the draft. A later registration that skips the photo files ticket 1 with it |

## Left out

- `main()`: the handler registration and polling loop are modelled only as the dispatch `Handlers.Handle`, which runs one update at a time. Concurrency between updates is not modelled.
- Logging setup and the start-up message on the console: there is no behaviour to model.
- `BOT_TOKEN` and `CHANNEL_ID`: configuration. The channel posts carry no chat id.
- Transport failures (network errors, a user who blocked the bot) are not modelled. Every Telegram call is assumed to succeed, except for the `reply_text` on a callback update, which is modelled as the fault `NoMessage`.
- What the framework does with an exception that escapes a handler (logging it) is not modelled. Such an exception is returned as the effect's fault, and the next update is handled as usual.
- Message-filter details of the framework: a text that is a command other than `/start` reaches no handler. The model's `Text` event stands for non-command text only.
- bot_webhook.py (HTTP plumbing) and test.py (a network smoke test) are not part of this model.
- The claim/release/close/feedback lifecycle, the single-active-ticket rule and persistent storage are not part of `bot.py` and are not modelled.
