/**
 * The order handler of handlers/order_handler.py: each order is keyed by
 * the id in its description (or by the arrival time), handled at most once
 * per key, recorded in the database and announced to the administrator.
 */
module Orders {
  import opened Common
  import opened Text
  import Helpers
  import Store
  import Telegram

  /** The key of an order: the "#<digits>" id in its description, else "order_<unix seconds>". */
  function OrderKey(description: string, nowSeconds: int): (key: string)
    ensures Helpers.ParseOrderId(description).Some? ==> key == Helpers.ParseOrderId(description).value
    ensures Helpers.ParseOrderId(description).None? ==> key == "order_" + IntToStr(nowSeconds)
  {
    match Helpers.ParseOrderId(description)
    case Some(id) => id
    case None => "order_" + IntToStr(nowSeconds)
  }

  /** A fallback key never collides with an id found in a description: ids are digits, fallbacks are not. */
  lemma FallbackKeysAreDistinct(description: string, other: string, nowSeconds: int)
    requires Helpers.ParseOrderId(description).Some?
    requires Helpers.ParseOrderId(other).None?
    ensures OrderKey(description, nowSeconds) != OrderKey(other, nowSeconds)
  {
    Helpers.ParseOrderIdSpec(description);
    var key := OrderKey(description, nowSeconds);
    if |key| > 0 {
      assert IsDigit(key[0]);
    }
  }

  class OrderHandler {
    /** Keys of the orders seen so far; it only grows. */
    var processedOrders: set<string>
    const db: Store.Database
    const bot: Telegram.TelegramBot?

    constructor (db: Store.Database, bot: Telegram.TelegramBot?)
      ensures this.db == db && this.bot == bot && processedOrders == {}
    {
      this.db := db;
      this.bot := bot;
      processedOrders := {};
    }

    /** The bot as a set of objects, empty when none is wired. */
    function Notifier(): set<Telegram.TelegramBot>
    {
      if bot == null then {} else {bot}
    }

    /**
     * handle: a key already processed is ignored (false, no database or
     * notification call). A new key is marked processed before any
     * database call, so it stays marked when that work raises and false
     * is returned. Otherwise the buyer (user 0) and the order are stored,
     * the administrator is notified if a bot is wired, and true returned.
     */
    method Handle(description: string, buyerUsername: string, nowSeconds: int, notifyFails: bool)
      returns (ok: bool)
      requires db.Valid()
      modifies this`processedOrders, db`users, db`userSeq, db`orders, db`orderSeq,
               Notifier()`notificationsSent, Notifier()`sent
      ensures db.Valid()
      ensures processedOrders == old(processedOrders) + {OrderKey(description, nowSeconds)}
      ensures ok <==> OrderKey(description, nowSeconds) !in old(processedOrders) && db.open
      ensures OrderKey(description, nowSeconds) in old(processedOrders) || !db.open ==>
        unchanged(db) && (bot == null || unchanged(bot))
      ensures ok ==> (OrderKey(description, nowSeconds) in db.orders &&
                      db.orders.Keys == old(db.orders).Keys + {OrderKey(description, nowSeconds)})
      ensures ok && bot != null ==>
        bot.sent == old(bot.sent) + (if bot.hasApp && !notifyFails
          then [Telegram.Notice(Telegram.OrderNotice(OrderKey(description, nowSeconds), buyerUsername, description), None)]
          else [])
    {
      var key := OrderKey(description, nowSeconds);
      if key in processedOrders {
        return false;
      }
      processedOrders := processedOrders + {key};
      var user := db.AddOrUpdateUser(0, buyerUsername, nowSeconds);
      if user.DbError? {
        return false;
      }
      var order := db.AddOrder(key, 0, buyerUsername, description, nowSeconds);
      if order.DbError? {
        return false;
      }
      if bot != null {
        bot.SendOrderNotification(key, buyerUsername, description, notifyFails);
      }
      return true;
    }
  }
}
