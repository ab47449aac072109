/**
  The handlers as they run against the persistent collections: a store
  object whose two fields the handlers update in place, one write at a time,
  in the order the source performs them. Each method is proved to produce
  exactly the state and outcome of the matching step function of OrderFlow.
 */
module OrderStore {
  import opened Wrappers
  import PyStr
  import Payload
  import opened OrderFlow

  /** The `users` and `orders` collections of the `telegram_subscriptions` database. */
  class Store {
    var users: map<string, UserRec>
    var orders: seq<Order>

    /** The store's contents as a value. */
    function Contents(): Db
      reads this
    {
      Db(users, orders)
    }

    /** A handle on the two collections, holding whatever earlier runs stored in them. */
    constructor (init: Db)
      ensures Contents() == init
    {
      users := init.users;
      orders := init.orders;
    }

    /** `users.update_one({'telegram_id': key}, {'$set': ...}, upsert=True)`: insert or overwrite one record. */
    method UpsertUser(key: string, username: string, now: Timestamp)
      modifies this
      ensures users == old(users)[key := UserRec(username, now)]
      ensures orders == old(orders)
    {
      users := users[key := UserRec(username, now)];
    }

    /** `orders.insert_one(order)`: append one order. */
    method InsertOrder(order: Order)
      modifies this
      ensures orders == old(orders) + [order]
      ensures users == old(users)
    {
      orders := orders + [order];
    }

    /** `send_welcome`: touches neither collection. */
    method SendWelcome(msg: Message) returns (replies: seq<Reply>)
      ensures SendWelcomeStep(Contents(), msg) == Step(Contents(), Handled(replies))
    {
      replies := [ReplyTo(msg.chat, WelcomeText, [])];
    }

    /** `process_order`: strip the text, upsert the sender, reply with the two payment buttons. */
    method ProcessOrder(msg: Message, now: Timestamp) returns (replies: seq<Reply>)
      modifies this
      ensures ProcessOrderStep(old(Contents()), msg, now) == Step(Contents(), Handled(replies))
    {
      var service := PyStr.Strip(msg.text);
      var userId := UserKey(msg.fromUser);
      var username := DisplayName(msg.fromUser);
      UpsertUser(userId, username, now);
      replies := [ReplyTo(msg.chat, SelectPrompt, Payload.PaymentButtons(service))];
    }

    /**
      `handle_payment`: unpack the payload, insert the order, then pick the
      instructions; the insert has happened by the time a missing branch faults.
     */
    method HandlePayment(q: CallbackQuery, now: Timestamp) returns (outcome: Outcome)
      modifies this
      ensures HandlePaymentStep(old(Contents()), q, now) == Step(Contents(), outcome)
    {
      var parsed := Payload.Decode(q.data);
      if parsed.None? {
        return Failed(UnpackError);
      }
      var sel := parsed.value;
      var userId := UserKey(q.fromUser);
      var price := Price;
      InsertOrder(Order(userId, sel.service, price, sel.paymentMethod, Pending, now));
      var instructions := InstructionsFor(sel.paymentMethod);
      if instructions.None? {
        return Failed(UnboundInstructions);
      }
      outcome := Handled([
        SendPhoto(q.chat, instructions.value.photo, instructions.value.caption),
        SendMessage(q.chat, Summary(sel.service, price))]);
    }

    /** One inbound event, routed to the first handler that accepts it. */
    method Handle(ev: Event, now: Timestamp) returns (outcome: Outcome)
      modifies this
      ensures Dispatch(old(Contents()), ev, now) == Step(Contents(), outcome)
    {
      match ev
      case StartCommand(msg) =>
        var replies := SendWelcome(msg);
        outcome := Handled(replies);
      case Text(msg) =>
        var replies := ProcessOrder(msg, now);
        outcome := Handled(replies);
      case Callback(q) =>
        if Payload.IsPaymentCallback(q.data) {
          outcome := HandlePayment(q, now);
        } else {
          outcome := Ignored;
        }
    }
  }

}
