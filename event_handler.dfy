/**
 * The event router of core/event_handler.py: it hands each new message to
 * the message handler and each new order to the order handler, counts the
 * truthy results and contains whatever the handlers raise. What a handler
 * does with the event is its own module; here its completion is the
 * outcome passed in.
 */
module Events {
  import opened Common

  /** What get_stats reports: a value, so a caller cannot alter the counters through it. */
  datatype RouterStats = RouterStats(messagesHandled: nat, ordersHandled: nat, errors: nat)

  class EventHandler {
    var messagesHandled: nat
    var ordersHandled: nat
    var errors: nat
    /** Events routed so far. */
    ghost var routed: nat

    /** Every event is counted at most once: handled, or as an error, or not at all. */
    ghost predicate Valid()
      reads this
    {
      messagesHandled + ordersHandled + errors <= routed
    }

    constructor ()
      ensures Valid() && messagesHandled == ordersHandled == errors == 0
    {
      messagesHandled, ordersHandled, errors := 0, 0, 0;
      routed := 0;
    }

    /** handle_message: a truthy result counts as handled, a raise as an error, a falsy result as neither. */
    method HandleMessage(result: Outcome)
      requires Valid()
      modifies this`messagesHandled, this`errors, this`routed
      ensures Valid() && routed == old(routed) + 1
      ensures messagesHandled == old(messagesHandled) + (if result.Succeeded() then 1 else 0)
      ensures errors == old(errors) + (if result.Raised? then 1 else 0)
    {
      routed := routed + 1;
      if result.Raised? {
        errors := errors + 1;
      } else if result.truthy {
        messagesHandled := messagesHandled + 1;
      }
    }

    /** handle_order: the same bookkeeping for orders. */
    method HandleOrder(result: Outcome)
      requires Valid()
      modifies this`ordersHandled, this`errors, this`routed
      ensures Valid() && routed == old(routed) + 1
      ensures ordersHandled == old(ordersHandled) + (if result.Succeeded() then 1 else 0)
      ensures errors == old(errors) + (if result.Raised? then 1 else 0)
    {
      routed := routed + 1;
      if result.Raised? {
        errors := errors + 1;
      } else if result.truthy {
        ordersHandled := ordersHandled + 1;
      }
    }

    /** get_stats: a copy of the counters. */
    function Stats(): (s: RouterStats)
      reads this
      requires Valid()
      ensures s.messagesHandled + s.ordersHandled + s.errors <= routed
    {
      RouterStats(messagesHandled, ordersHandled, errors)
    }
  }
}
