/**
  The order flow of the bot as pure state transitions over an abstract store:
  `users` keyed by the sender's id rendered as a decimal string, and the
  append-only list of `orders`. Each inbound event yields the new store and
  an outcome: the replies sent, nothing (no handler matched), or the fault
  that ends the request.
 */
module OrderFlow {
  import opened Wrappers
  import PyStr
  import Payload

  /** The value of `datetime.utcnow()` at the time of a store write; supplied by the caller. */
  type Timestamp = int

  // ---------------------------------------------------------------------------
  // Inbound events
  // ---------------------------------------------------------------------------

  /** The sender of a message or callback: `from_user`. */
  datatype TgUser = TgUser(id: int, username: Option<string>, firstName: string)

  /** A text message: the chat it came from, its sender and its text. */
  datatype Message = Message(chat: int, fromUser: TgUser, text: string)

  /** A button press: its sender, the chat of the message carrying the button, and the button's data. */
  datatype CallbackQuery = CallbackQuery(fromUser: TgUser, chat: int, data: string)

  /**
    The event kinds told apart by the messaging library's handler order:
    the `/start` command, any other text message, and a button press.
   */
  datatype Event =
    | StartCommand(msg: Message)
    | Text(msg: Message)
    | Callback(query: CallbackQuery)

  // ---------------------------------------------------------------------------
  // The store
  // ---------------------------------------------------------------------------

  /** A user document's fields besides its key `telegram_id`. */
  datatype UserRec = UserRec(username: string, lastSeen: Timestamp)

  /** An order document. */
  datatype Order = Order(
    userId: string,
    service: string,
    amount: int,
    paymentMethod: string,
    status: string,
    createdAt: Timestamp)

  datatype Db = Db(users: map<string, UserRec>, orders: seq<Order>)

  // ---------------------------------------------------------------------------
  // Outbound replies and outcomes
  // ---------------------------------------------------------------------------

  /** The arguments of the three messaging calls the handlers make. */
  datatype Reply =
    | ReplyTo(chat: int, text: string, keyboard: seq<Payload.Button>)
    | SendPhoto(chat: int, photo: string, caption: string)
    | SendMessage(chat: int, text: string)

  /** The exceptions that end a payment callback early. */
  datatype Fault =
    | UnpackError          // the three-way unpacking of the split payload
    | UnboundInstructions  // `photo_url` and `instructions` never assigned

  datatype Outcome =
    | Handled(replies: seq<Reply>)
    | Ignored
    | Failed(fault: Fault)

  datatype Step = Step(db: Db, outcome: Outcome)

  // ---------------------------------------------------------------------------
  // Constants
  // ---------------------------------------------------------------------------

  /** The one price charged for every service. */
  const Price := 699
  const Pending := "pending"

  const WelcomeText := "\U{1F31F} Welcome to Premium Subscriptions! Send me your order (e.g., 'Hotstar Super 1 year')."
  const SelectPrompt := "\U{1F539} Select your payment method:"

  const UpiPhoto := "https://yourdomain.com/upi-scanner.jpg"
  const UpiInstructions :=
    "\U{1F7E2} **How to Pay via UPI:**\n"
    + "1. Open your UPI app (GPay, PhonePe, Paytm, etc.)\n"
    + "2. Scan the QR code above to pay.\n"
    + "3. After payment, send a screenshot of the receipt here.\n"
    + "4. Your login details will be delivered within 15\U{2013}30 minutes after verification.\n"

  const PaytmPhoto := "https://yourdomain.com/paytm-scanner.jpg"
  const PaytmInstructions :=
    "\U{1F535} **How to Pay via Paytm:**\n"
    + "1. Open Paytm app.\n"
    + "2. Scan the QR code above to pay.\n"
    + "3. After payment, send a screenshot here.\n"
    + "4. We'll deliver your login details soon.\n"

  // ---------------------------------------------------------------------------
  // The pieces of the handlers
  // ---------------------------------------------------------------------------

  /** `str(from_user.id)`: the key of the user's record and the `user_id` of their orders. */
  function UserKey(u: TgUser): string {
    PyStr.IntToDecimal(u.id)
  }

  /** `username or first_name`: an absent or empty username falls back to the first name. */
  function DisplayName(u: TgUser): string {
    match u.username
    case Some(name) => if name != "" then name else u.firstName
    case None => u.firstName
  }

  /** The scanner photo and its caption. */
  datatype Instructions = Instructions(photo: string, caption: string)

  /** The `if`/`elif` on the method: None for a method neither branch assigns. */
  function InstructionsFor(paymentMethod: string): Option<Instructions> {
    if paymentMethod == Payload.Upi then Some(Instructions(UpiPhoto, UpiInstructions))
    else if paymentMethod == Payload.Paytm then Some(Instructions(PaytmPhoto, PaytmInstructions))
    else None
  }

  const SummaryHead := "\U{1F4DD} **Order Received**\nService: "
  const SummaryMid := "\nAmount: \U{20B9}"
  const SummaryTail := "\n\n\U{1F449} Please send your payment screenshot for verification."

  /** The order-summary message, with the service and the price rendered in decimal. */
  function Summary(service: string, price: int): string {
    SummaryHead + service + SummaryMid + PyStr.IntToDecimal(price) + SummaryTail
  }

  /** The order `handle_payment` inserts. */
  function NewOrder(q: CallbackQuery, sel: Payload.Selection, now: Timestamp): Order {
    Order(UserKey(q.fromUser), sel.service, Price, sel.paymentMethod, Pending, now)
  }

  // ---------------------------------------------------------------------------
  // The handlers as state transitions
  // ---------------------------------------------------------------------------

  /** `send_welcome`: a fixed reply, no store access. */
  function SendWelcomeStep(db: Db, msg: Message): Step {
    Step(db, Handled([ReplyTo(msg.chat, WelcomeText, [])]))
  }

  /** `process_order`: upsert the sender, then offer the two payment buttons for the stripped text. */
  function ProcessOrderStep(db: Db, msg: Message, now: Timestamp): Step {
    var service := PyStr.Strip(msg.text);
    var users := db.users[UserKey(msg.fromUser) := UserRec(DisplayName(msg.fromUser), now)];
    Step(Db(users, db.orders), Handled([ReplyTo(msg.chat, SelectPrompt, Payload.PaymentButtons(service))]))
  }

  /**
    `handle_payment`: unpack the payload (a fault before any write), insert
    the order, then send the method's photo and instructions and the summary
    (a fault after the insert when the method has no branch).
   */
  function HandlePaymentStep(db: Db, q: CallbackQuery, now: Timestamp): Step {
    match Payload.Decode(q.data)
    case None => Step(db, Failed(UnpackError))
    case Some(sel) =>
      var db' := Db(db.users, db.orders + [NewOrder(q, sel, now)]);
      match InstructionsFor(sel.paymentMethod)
      case None => Step(db', Failed(UnboundInstructions))
      case Some(ins) =>
        Step(db', Handled([SendPhoto(q.chat, ins.photo, ins.caption), SendMessage(q.chat, Summary(sel.service, Price))]))
  }

  /** Routing: `/start`, any other text, and only those callbacks that pass the payment filter. */
  function Dispatch(db: Db, ev: Event, now: Timestamp): Step {
    match ev
    case StartCommand(msg) => SendWelcomeStep(db, msg)
    case Text(msg) => ProcessOrderStep(db, msg, now)
    case Callback(q) =>
      if Payload.IsPaymentCallback(q.data) then HandlePaymentStep(db, q, now) else Step(db, Ignored)
  }

  /** `health_check`: the liveness response. */
  function HealthCheck(): (response: (string, int))
    ensures response.0 == "OK" && response.1 == 200
  {
    ("OK", 200)
  }

  // ---------------------------------------------------------------------------
  // Properties of one event
  // ---------------------------------------------------------------------------

  /** `/start` leaves the store as it was and replies with the welcome text only. */
  lemma {:induction false} StartLeavesStore(db: Db, msg: Message, now: Timestamp)
    ensures Dispatch(db, StartCommand(msg), now).db == db
    ensures Dispatch(db, StartCommand(msg), now).outcome == Handled([ReplyTo(msg.chat, WelcomeText, [])])
  {
  }

  /** Distinct senders never share a user record. */
  lemma {:induction false} UserKeyInjective(u: TgUser, v: TgUser)
    ensures UserKey(u) == UserKey(v) ==> u.id == v.id
  {
    PyStr.IntToDecimalInjective(u.id, v.id);
  }

  /**
    A text message leaves the sender's record present with the username, or
    the first name when there is no username, and the time of the call;
    every other record and every order is untouched; the reply offers two
    buttons whose payloads are `payment_upi_` and `payment_paytm_` followed
    by the stripped text, and both decode back to that text.
   */
  lemma {:induction false} ProcessOrderUpserts(db: Db, msg: Message, now: Timestamp)
    ensures var r := Dispatch(db, Text(msg), now);
      && var key := PyStr.IntToDecimal(msg.fromUser.id);
      && key in r.db.users
      && r.db.users[key].lastSeen == now
      && (msg.fromUser.username.Some? && msg.fromUser.username.value != "" ==>
            r.db.users[key].username == msg.fromUser.username.value)
      && (msg.fromUser.username.None? || msg.fromUser.username.value == "" ==>
            r.db.users[key].username == msg.fromUser.firstName)
      && r.db.users.Keys == db.users.Keys + {key}
      && (forall k :: k in db.users && k != key ==> r.db.users[k] == db.users[k])
      && r.db.orders == db.orders
    ensures var r := Dispatch(db, Text(msg), now);
      var service := PyStr.Strip(msg.text);
      && r.outcome.Handled? && |r.outcome.replies| == 1
      && r.outcome.replies[0].ReplyTo?
      && r.outcome.replies[0].chat == msg.chat
      && r.outcome.replies[0].text == SelectPrompt
      && |r.outcome.replies[0].keyboard| == 2
      && r.outcome.replies[0].keyboard[0].callbackData == "payment_upi_" + service
      && r.outcome.replies[0].keyboard[1].callbackData == "payment_paytm_" + service
      && Payload.Decode(r.outcome.replies[0].keyboard[0].callbackData) == Some(Payload.Selection(Payload.Upi, service))
      && Payload.Decode(r.outcome.replies[0].keyboard[1].callbackData) == Some(Payload.Selection(Payload.Paytm, service))
  {
    Payload.PaymentButtonsRoundTrip(PyStr.Strip(msg.text));
  }

  /** A callback whose data does not start with `payment_` reaches no handler and changes nothing. */
  lemma {:induction false} NonPaymentCallbackIgnored(db: Db, q: CallbackQuery, now: Timestamp)
    requires !PyStr.StartsWith(q.data, "payment_")
    ensures Dispatch(db, Callback(q), now) == Step(db, Ignored)
  {
  }

  /**
    A payment callback whose payload cannot be unpacked (no underscore after
    `payment_`, e.g. `payment_upi`) faults before any write: the store is unchanged.
   */
  lemma {:induction false} MalformedPaymentLeavesStore(db: Db, q: CallbackQuery, now: Timestamp)
    requires PyStr.StartsWith(q.data, "payment_")
    requires '_' !in q.data[|Payload.Prefix|..]
    ensures Dispatch(db, Callback(q), now) == Step(db, Failed(UnpackError))
  {
    Payload.FilteredDecodeFailsIff(q.data);
  }

  /**
    A payment callback that unpacks appends exactly one order: the sender's
    id in decimal, the unpacked service and method, amount 699, status
    "pending" and the time of the call; earlier orders and the users are
    unchanged. This holds whatever the method, before any reply is attempted.
   */
  lemma {:induction false} PaymentAppendsOneOrder(db: Db, q: CallbackQuery, now: Timestamp)
    requires PyStr.StartsWith(q.data, "payment_")
    requires Payload.Decode(q.data).Some?
    ensures var r := Dispatch(db, Callback(q), now);
      var sel := Payload.Decode(q.data).value;
      && r.db.users == db.users
      && |r.db.orders| == |db.orders| + 1
      && r.db.orders[..|db.orders|] == db.orders
      && r.db.orders[|db.orders|]
         == Order(PyStr.IntToDecimal(q.fromUser.id), sel.service, 699, sel.paymentMethod, "pending", now)
  {
  }

  /**
    For a method other than `upi` and `paytm` the photo send faults, but the
    order appended before it stays in the store.
   */
  lemma {:induction false} UnknownMethodFaultsAfterInsert(db: Db, q: CallbackQuery, now: Timestamp)
    requires PyStr.StartsWith(q.data, "payment_")
    requires Payload.Decode(q.data).Some?
    requires Payload.Decode(q.data).value.paymentMethod != "upi"
    requires Payload.Decode(q.data).value.paymentMethod != "paytm"
    ensures var r := Dispatch(db, Callback(q), now);
      && r.outcome == Failed(UnboundInstructions)
      && |r.db.orders| == |db.orders| + 1
      && r.db.orders[|db.orders|].paymentMethod == Payload.Decode(q.data).value.paymentMethod
  {
  }

  /** The summary names the service and the price as decimal digits. */
  lemma {:induction false} SummaryMentions(service: string, price: int)
    ensures PyStr.Contains(Summary(service, price), service)
    ensures PyStr.Contains(Summary(service, price), PyStr.IntToDecimal(price))
  {
    var s := Summary(service, price);
    var i := |SummaryHead|;
    assert s[i..i + |service|] == service;
    assert PyStr.OccursAt(s, service, i);
    var j := |SummaryHead + service + SummaryMid|;
    var p := PyStr.IntToDecimal(price);
    assert s == (SummaryHead + service + SummaryMid) + p + SummaryTail;
    assert s[j..j + |p|] == p;
    assert PyStr.OccursAt(s, p, j);
  }

  /** The fixed price is rendered as "699". */
  lemma {:induction false} PriceText()
    ensures PyStr.IntToDecimal(Price) == "699"
  {
  }

  /**
    The round trip through the buttons: pressing the button built for a
    method and a service records an order with that method and that exact
    service, and replies with the method's photo and instructions and then
    a summary naming the service and 699.
   */
  lemma {:induction false} PaymentRoundTrip(db: Db, u: TgUser, chat: int, paymentMethod: string, service: string, now: Timestamp)
    requires paymentMethod == "upi" || paymentMethod == "paytm"
    ensures var r := Dispatch(db, Callback(CallbackQuery(u, chat, Payload.Encode(paymentMethod, service))), now);
      && r.db.users == db.users
      && r.db.orders == db.orders + [Order(PyStr.IntToDecimal(u.id), service, 699, paymentMethod, "pending", now)]
      && r.outcome.Handled? && |r.outcome.replies| == 2
      && r.outcome.replies[0] == SendPhoto(chat,
           if paymentMethod == "upi" then UpiPhoto else PaytmPhoto,
           if paymentMethod == "upi" then UpiInstructions else PaytmInstructions)
      && r.outcome.replies[1].SendMessage?
      && r.outcome.replies[1].chat == chat
      && PyStr.Contains(r.outcome.replies[1].text, service)
      && PyStr.Contains(r.outcome.replies[1].text, "699")
  {
    Payload.DecodeEncode(paymentMethod, service);
    SummaryMentions(service, Price);
    PriceText();
  }

  /**
    The store does not keep the invariant that every order's user has a
    record: a button pressed by someone who never sent a text (another member
    of a group chat, or a button surviving a store reset) inserts an order
    whose `user_id` has no user document.
   */
  lemma {:induction false} OrderWithoutUserRecord(db: Db, u: TgUser, chat: int, service: string, now: Timestamp)
    requires UserKey(u) !in db.users
    ensures var r := Dispatch(db, Callback(CallbackQuery(u, chat, Payload.Encode("upi", service))), now);
      && |r.db.orders| == |db.orders| + 1
      && r.db.orders[|db.orders|].userId == UserKey(u)
      && UserKey(u) !in r.db.users
  {
    Payload.DecodeEncode("upi", service);
  }

  /**
    The intended two-step conversation: a text message, then a press of one
    of the two buttons it produced. The order records the stripped text as
    the service and the chosen method, and its user now has a record.
   */
  lemma {:induction false} OrderConversation(db: Db, msg: Message, t1: Timestamp, button: nat, t2: Timestamp)
    requires button < 2
    ensures var offered := Dispatch(db, Text(msg), t1);
      && offered.outcome.Handled? && |offered.outcome.replies| == 1
      && |offered.outcome.replies[0].keyboard| == 2
      && var data := offered.outcome.replies[0].keyboard[button].callbackData;
      && var placed := Dispatch(offered.db, Callback(CallbackQuery(msg.fromUser, msg.chat, data)), t2);
      && placed.outcome.Handled?
      && placed.db.orders == db.orders + [Order(UserKey(msg.fromUser), PyStr.Strip(msg.text), 699,
           if button == 0 then "upi" else "paytm", "pending", t2)]
      && UserKey(msg.fromUser) in placed.db.users
  {
    var service := PyStr.Strip(msg.text);
    var m := if button == 0 then Payload.Upi else Payload.Paytm;
    var offered := Dispatch(db, Text(msg), t1);
    assert offered.outcome.replies[0].keyboard == Payload.PaymentButtons(service);
    assert offered.outcome.replies[0].keyboard[button].callbackData == Payload.Encode(m, service);
    assert UserKey(msg.fromUser) in offered.db.users && offered.db.orders == db.orders;
    PaymentRoundTrip(offered.db, msg.fromUser, msg.chat, m, service, t2);
  }

  // ---------------------------------------------------------------------------
  // Properties of a sequence of requests
  // ---------------------------------------------------------------------------

  /** One webhook delivery: the event and the time its handler reads the clock. */
  datatype Request = Request(event: Event, at: Timestamp)

  /** The store after handling the requests one after the other, each to completion. */
  function Run(db: Db, trace: seq<Request>): Db
    decreases |trace|
  {
    if trace == [] then db
    else Run(Dispatch(db, trace[0].event, trace[0].at).db, trace[1..])
  }

  /** The events that insert an order: payment callbacks whose payload unpacks. */
  predicate PlacesOrder(ev: Event) {
    ev.Callback? && Payload.IsPaymentCallback(ev.query.data) && Payload.Decode(ev.query.data).Some?
  }

  function OrdersPlaced(trace: seq<Request>): nat
    decreases |trace|
  {
    if trace == [] then 0
    else (if PlacesOrder(trace[0].event) then 1 else 0) + OrdersPlaced(trace[1..])
  }

  /** Every order in the list is pending at the fixed price: no handler ever changes an order. */
  predicate AllPending(orders: seq<Order>) {
    forall k :: 0 <= k < |orders| ==> orders[k].status == Pending && orders[k].amount == Price
  }

  /** One event grows the order list by exactly the orders it places, keeps it pending, and deletes no user. */
  lemma {:induction false} DispatchGrowth(db: Db, ev: Event, now: Timestamp)
    ensures var d := Dispatch(db, ev, now).db;
      && |d.orders| == |db.orders| + (if PlacesOrder(ev) then 1 else 0)
      && d.orders[..|db.orders|] == db.orders
      && (AllPending(db.orders) ==> AllPending(d.orders))
      && db.users.Keys <= d.users.Keys
  {
  }

  /**
    Over any sequence of requests orders are only appended, one per request
    that places an order; they all stay pending at 699; and no user record
    is ever deleted.
   */
  lemma {:induction false} RunAppendOnly(db: Db, trace: seq<Request>)
    ensures var d := Run(db, trace);
      && |d.orders| == |db.orders| + OrdersPlaced(trace)
      && d.orders[..|db.orders|] == db.orders
      && (AllPending(db.orders) ==> AllPending(d.orders))
      && db.users.Keys <= d.users.Keys
    decreases |trace|
  {
    if trace != [] {
      var mid := Dispatch(db, trace[0].event, trace[0].at).db;
      DispatchGrowth(db, trace[0].event, trace[0].at);
      RunAppendOnly(mid, trace[1..]);
      var d := Run(db, trace);
      assert d == Run(mid, trace[1..]);
      assert d.orders[..|db.orders|] == d.orders[..|mid.orders|][..|db.orders|];
    }
  }

  /** Everyone who sent a text anywhere in the sequence has a user record at the end. */
  lemma {:induction false} RunRecordsTextSenders(db: Db, trace: seq<Request>, i: nat)
    requires i < |trace| && trace[i].event.Text?
    ensures UserKey(trace[i].event.msg.fromUser) in Run(db, trace).users
    decreases |trace|
  {
    var mid := Dispatch(db, trace[0].event, trace[0].at).db;
    if i == 0 {
      RunAppendOnly(mid, trace[1..]);
    } else {
      RunRecordsTextSenders(mid, trace[1..], i - 1);
    }
  }

}
