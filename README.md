# Premium-subscription order bot: a verified model

The bot sells subscriptions over Telegram in a two-step conversation.

1. A customer sends the name of a service as plain text. The bot records the
   sender in the `users` collection and replies with two inline buttons,
   "Pay via UPI" and "Pay via Paytm".
2. Each button carries a payload `payment_<method>_<service>`. Pressing one
   appends a pending order for 699 rupees to the `orders` collection. The bot
   then sends the method's QR-code photo with payment instructions, followed
   by an order summary.

`/start` gets a fixed welcome reply, and `GET /` is a liveness check that
returns `("OK", 200)`.

The model has five modules:

- `Wrappers`: `Option`.
- `PyStr`: the Python string operations the handlers rely on, with their
  exact semantics:
  - `str.strip()` over the 29 code points `str.isspace` accepts;
  - `startswith`;
  - `split(sep, maxsplit)`, where at most `maxsplit` splits are made and the
    last piece keeps every later separator;
  - `str(int)`, rendered in decimal.
- `Payload`: the button payload codec. It builds the payload with the
  f-string, takes it apart with `split('_', 2)` and a three-way unpacking
  (which fails on fewer than three pieces), and applies the
  `startswith('payment_')` callback filter.
- `OrderFlow`:
  - the events, the store contents (`users: map<string, UserRec>` keyed by
    `telegram_id`, and `orders: seq<Order>`), the replies and the handler
    outcomes;
  - each handler as a pure step function from a store and an event to a new
    store and an outcome (`Handled(replies)`, `Ignored` or `Failed(fault)`);
  - lemmas about one step, and about any sequence of requests handled one
    after the other.
- `OrderStore`: a `Store` class whose `users` and `orders` fields the
  handler methods update in place, one database write at a time, in the
  source's order. Each method is proved to end in exactly the state and
  outcome of its `OrderFlow` step function.

Inputs that come from outside the program are parameters:

- the sender and chat of each event;
- the callback data;
- the value `datetime.utcnow()` returns, an opaque `Timestamp`.

The Telegram calls `reply_to`, `send_photo` and `send_message` are modelled
by their arguments, as `Reply` values.

### Behaviour of the code worth knowing

- **Underscores in the service.** The payload is `_`-delimited, yet the
  service may itself contain `_`. The code splits with `maxsplit=2`, so the
  service is the last piece and keeps its own underscores:
  `Payload.DecodeEncode` holds for every service, underscores included.
- **An order's user need not have a record.** Nothing enforces that every
  order refers to a user who has a record. A button pressed by someone who
  never sent a text (another member of a group chat, say) inserts an order
  whose user has no record. `OrderFlow.OrderWithoutUserRecord` states this.
- **An unknown method.** Only `upi` and `paytm` assign `photo_url` and
  `instructions`. For any other method, line 85 raises `UnboundLocalError`
  when it reads `photo_url` to evaluate the arguments of `send_photo`. By
  then the order has been inserted, so the order stays and neither message
  is sent. The two buttons never produce such a method, but a forged
  callback can.

## Model

| member | source | states |
|---|---|---|
| PyStr.IsSpace | app.py:27 | `str.isspace` on one character: the 29 code points Python treats as whitespace; used by Strip |
| PyStr.LStrip | app.py:27 | `str.lstrip()`: specified by LStripDropsLeadingSpace |
| PyStr.RStrip | app.py:27 | `str.rstrip()`: specified by RStripDropsTrailingSpace |
| PyStr.Strip | app.py:27 | `str.strip()` of the message text: specified by StripSlice, StripEmptyIff and StripIdempotent |
| PyStr.StartsWith | app.py:48 | `str.startswith`: the data begins with the prefix |
| Payload.IsPaymentCallback | app.py:48 | the callback filter `data.startswith('payment_')`: specified by Encode, EncodeDecode and NonPaymentCallbackIgnored |
| Payload.Decode | app.py:50 | `split('_', 2)` and the three-way unpacking: specified by DecodeEncode, EncodeDecode, DecodeFailsIff and FilteredDecodeFailsIff |
| Payload.PaymentButtons | app.py:39-43 | the button row for a service: specified by PaymentButtonsRoundTrip |
| OrderFlow.UserKey | app.py:28 | `str(from_user.id)`: specified by UserKeyInjective |
| OrderFlow.DisplayName | app.py:29 | `username or first_name`: specified by ProcessOrderUpserts |
| OrderFlow.NewOrder | app.py:57-64 | the order document: specified by PaymentAppendsOneOrder |
| OrderFlow.InstructionsFor | app.py:68-83 | the `if`/`elif` on the method, with no value for any other method: specified by PaymentRoundTrip and UnknownMethodFaultsAfterInsert |
| OrderFlow.Summary | app.py:86 | the order-summary text: specified by SummaryMentions |
| OrderFlow.SendWelcomeStep | app.py:21-23 | `send_welcome`: specified by StartLeavesStore |
| OrderFlow.ProcessOrderStep | app.py:25-46 | `process_order`: specified by ProcessOrderUpserts and OrderConversation |
| OrderFlow.HandlePaymentStep | app.py:48-86 | `handle_payment`: specified by MalformedPaymentLeavesStore, PaymentAppendsOneOrder, UnknownMethodFaultsAfterInsert and PaymentRoundTrip |
| OrderFlow.Dispatch | app.py:21-86 | routing an event to the first handler that accepts it: specified by NonPaymentCallbackIgnored, DispatchGrowth and the lemmas above |
| OrderFlow.Run | app.py:21-86 | requests handled one after the other, each to completion: specified by RunAppendOnly and RunRecordsTextSenders |
| PyStr.LStripDropsLeadingSpace | app.py:27 | lstrip removes exactly the longest all-whitespace prefix: what remains is a suffix of the input that is empty or starts with a non-space character |
| PyStr.RStripDropsTrailingSpace | app.py:27 | rstrip removes exactly the longest all-whitespace suffix: what remains is a prefix of the input that is empty or ends with a non-space character |
| PyStr.StripSlice | app.py:27 | the stripped text is a contiguous slice of the message text, everything before and after it is whitespace, and its first and last characters are not whitespace |
| PyStr.StripEmptyIff | app.py:27 | strip gives the empty string exactly when the text is all whitespace |
| PyStr.StripIdempotent | app.py:27 | stripping an already stripped service changes nothing |
| PyStr.Find | app.py:50 | the position of the first separator is within the string |
| PyStr.FindFirst | app.py:50 | Find gives the first occurrence of the separator, and returns the length exactly when the separator is absent |
| PyStr.FindAfter | app.py:50 | in `a + sep + b` with no separator in `a`, the first separator sits right after `a` |
| PyStr.Count | app.py:50 | an occurrence count never exceeds the length |
| PyStr.CountZeroIff | app.py:50 | a character occurs zero times exactly when it is absent |
| PyStr.CountConcat | app.py:50 | counts add up over concatenation |
| PyStr.CountAfterFirst | app.py:50 | the text after the first separator holds all but one of its occurrences |
| PyStr.Split | app.py:50 | split with maxsplit n yields between 1 and n+1 pieces |
| PyStr.SplitPieces | app.py:50 | no piece but the last contains the separator, and the last contains it only when all maxsplit splits were made |
| PyStr.SplitLength | app.py:50 | the number of pieces is 1 + min(maxsplit, number of separators) |
| PyStr.JoinThree | app.py:41-42 | joining three pieces puts the separator between them |
| PyStr.JoinSplit | app.py:50 | joining the pieces of a split with its separator gives back the original string |
| PyStr.SplitJoin | app.py:50 | splitting the join of n pieces with maxsplit n-1 gives the pieces back when no piece but the last contains the separator |
| PyStr.DigitChar | app.py:28 | a digit value below 10 becomes a decimal digit character |
| PyStr.NatToDecimal | app.py:28 | the decimal text of a natural number is non-empty, all digits, and has no leading zero unless it is "0", which only 0 gives |
| PyStr.IntToDecimal | app.py:28 | str(int) is non-empty and starts with '-' exactly for negative numbers |
| PyStr.DecimalValueOfNat | app.py:28 | reading the decimal digits back gives the number |
| PyStr.NatToDecimalInjective | app.py:28 | distinct natural numbers have distinct decimal renderings |
| PyStr.IntToDecimalInjective | app.py:28 | distinct integers have distinct str() renderings |
| Payload.Encode | app.py:41-42 | every payload the buttons carry starts with `payment_`, so it passes the callback filter |
| Payload.DecodeEncode | app.py:41-50 | for a method without `_` and any service, underscores included, the unpacking recovers the method and the service |
| Payload.DecodeEncodeBothMethods | app.py:41-50 | both button payloads, `upi` and `paytm`, decode to the method and the service they were built from |
| Payload.EncodeDecode | app.py:48-50 | a payload that passes the filter and unpacks is exactly the encoding of what it unpacks to, and its method has no `_` |
| Payload.DecodeFailsIff | app.py:50 | the three-way unpacking fails exactly when the data has fewer than two underscores |
| Payload.FilteredDecodeFailsIff | app.py:48-50 | for data that passed the filter, the unpacking fails exactly when no `_` follows `payment_` |
| Payload.MethodWithoutServiceFails | app.py:48-50 | "payment_upi" passes the filter but cannot be unpacked |
| Payload.PaymentButtonsRoundTrip | app.py:40-43 | there are exactly two buttons; their payloads are `payment_upi_` and then `payment_paytm_` followed by the service; both pass the filter and decode to their method and the service |
| OrderFlow.HealthCheck | app.py:90-92 | the health check always answers ("OK", 200) |
| OrderFlow.StartLeavesStore | app.py:21-23 | `/start` leaves the store unchanged and replies only with the welcome text, to the same chat |
| OrderFlow.UserKeyInjective | app.py:28 | two senders share a user key only if they have the same id |
| OrderFlow.ProcessOrderUpserts | app.py:25-46 | a text leaves the sender's record present under str(id), holding the username (or the first name when the username is missing or empty) and the call time; it adds no other key, leaves every other record and all orders unchanged, and replies to the chat with the select prompt and the two buttons for the stripped text |
| OrderFlow.NonPaymentCallbackIgnored | app.py:48 | a callback whose data does not start with `payment_` reaches no handler and changes nothing |
| OrderFlow.MalformedPaymentLeavesStore | app.py:48-65 | a payment callback with no `_` after `payment_` faults at the unpacking, before any write: both collections are unchanged |
| OrderFlow.PaymentAppendsOneOrder | app.py:50-65 | a payment callback that unpacks appends exactly one order (user_id str(id), the parsed service and method, amount 699, status "pending", the call time); earlier orders and users are unchanged, whatever the method |
| OrderFlow.UnknownMethodFaultsAfterInsert | app.py:65-85 | for a method other than `upi` and `paytm` the handler faults with an unbound name at the photo send, and the order appended before it stays in the store |
| OrderFlow.SummaryMentions | app.py:86 | the summary message contains the service and the price in decimal |
| OrderFlow.PriceText | app.py:54-86 | the price is rendered as "699" |
| OrderFlow.PaymentRoundTrip | app.py:41-86 | pressing the button built for `upi` or `paytm` and a service appends that exact order, then replies to the chat with the method's photo and instructions and a summary containing the service and "699" |
| OrderFlow.OrderWithoutUserRecord | app.py:48-65 | a sender with no user record can still place an order: the new order refers to a user key that has no record |
| OrderFlow.OrderConversation | app.py:25-86 | texting a service and then pressing either button offered records one order with the stripped text and the chosen method, and its sender has a user record |
| OrderFlow.DispatchGrowth | app.py:21-86 | one event appends one order if it is a payment that unpacks and none otherwise, keeps the earlier orders, keeps all orders pending at 699, and removes no user |
| OrderFlow.RunAppendOnly | app.py:21-86 | after any sequence of requests handled one after the other, the orders are the old ones plus one per order-placing request, all still pending at 699, and no user record has been removed |
| OrderFlow.RunRecordsTextSenders | app.py:25-36 | everyone who sent a text anywhere in a sequence of requests has a user record at the end |
| OrderStore.Store.constructor | app.py:16-17 | the handle on the `users` and `orders` collections holds exactly what they already contain, whatever earlier runs stored |
| OrderStore.Store.UpsertUser | app.py:32-36 | the upsert writes the record under the key, inserting or overwriting it, and leaves the orders alone |
| OrderStore.Store.InsertOrder | app.py:65 | the insert appends the order and leaves the users alone |
| OrderStore.Store.SendWelcome | app.py:21-23 | the welcome handler replies exactly as SendWelcomeStep and leaves the store as it was |
| OrderStore.Store.ProcessOrder | app.py:25-46 | stripping, then upserting, then replying ends in exactly the state and replies of ProcessOrderStep |
| OrderStore.Store.HandlePayment | app.py:48-86 | unpacking (with an early exit on failure), inserting, then choosing the instructions (with an exit after the insert for an unknown method) ends in exactly the state and outcome of HandlePaymentStep |
| OrderStore.Store.Handle | app.py:21-86 | routing an event to the first handler that accepts it ends in exactly the state and outcome of Dispatch |

## Left out

- Flask routing, JSON decoding and the `de_json` / `process_new_updates` glue (app.py:94-99): web-framework plumbing. `health_check` is modelled as a constant response.
- Telegram API calls (`reply_to`, `send_photo`, `send_message`, `remove_webhook`, `set_webhook`; app.py:23, 46, 85-86, 102-103): foreign calls. Only their arguments are modelled, as `Reply` values, and a failing call is not modelled.
- How telebot picks a handler (command extraction, content types, first-match order; app.py:21, 25, 48): library code. The event arrives already classified as `/start`, other text or a callback, and only the callback filter at line 48 is modelled.
- MongoDB connection setup and the real `update_one` / `insert_one` semantics (app.py:13-17): the collections are an abstract map and sequence, and a failing write is not modelled.
- Environment configuration and startup failure (app.py:9-10, 13): process I/O.
- `datetime.datetime.utcnow()`: an opaque `Timestamp` parameter, with no reasoning about clocks.
- Concurrency between webhook requests: requests are handled one after the other, each to completion.
- Telegram's 64-byte limit on callback data: enforced by the Telegram server, outside the program. A stripped text longer than 50 UTF-8 bytes (`payment_paytm_` takes 14) makes Telegram refuse the `reply_to` at app.py:46, after the upsert has happened.
- OrderFlow.ProcessOrderStep: answers `Handled` for any text, so it matches the code only for texts short enough for the callback-data limit; for longer ones the user record is still written but the code's reply fails.
- OrderFlow.ProcessOrderUpserts: its reply clauses, like those of ProcessOrderStep, hold only for texts within the callback-data limit; its store clauses hold for every text.
- OrderFlow.OrderConversation: holds only for texts within the callback-data limit, since a longer text gets no buttons to press.
- Message wording: the welcome, prompt, instruction and summary texts are kept as exact string constants. The lemmas only state what the summary must contain.
