/**
 * The SQLite store of database/database.py over in-memory tables (columns
 * as in database/models.py). Users and orders are maps keyed by their
 * UNIQUE column; messages and templates, which are only ever inserted, are
 * sequences whose row id is the position plus one (AUTOINCREMENT with no
 * deletes and no id consumed by a failed insert).
 *
 * The only database error modelled is the connection that was never
 * opened: `self.connection` is None, so every statement raises.
 * Timestamps are a clock value passed in by the caller.
 */
module Store {
  import opened Common

  /** A method's completion: the value it returned, or that it raised. */
  datatype DbResult<T> = Done(value: T) | DbError

  datatype UserRow = UserRow(id: nat, username: string, lastSeen: int, totalMessages: nat, totalOrders: nat)

  datatype MessageRow = MessageRow(chatId: int, authorId: int, authorUsername: string, text: string,
                                   isOutgoing: bool, hash: Option<string>)

  datatype OrderRow = OrderRow(id: nat, orderId: string, buyerId: int, buyerUsername: string,
                               description: string, status: string, updatedAt: int,
                               completedAt: Option<int>)

  datatype TemplateRow = TemplateRow(id: nat, name: string, trigger: string, response: string,
                                     isActive: bool, useCount: nat)

  /** The statuses get_active_orders selects. */
  predicate IsActive(status: string)
  {
    status == "new" || status == "active"
  }

  /** A hash that takes part in the dedup lookup: present and non-empty (Python truthiness). */
  predicate Truthy(hash: Option<string>)
  {
    hash.Some? && hash.value != ""
  }

  /** Rows of the messages table carrying the hash. */
  predicate HasHash(messages: seq<MessageRow>, hash: string)
  {
    exists i :: 0 <= i < |messages| && messages[i].hash == Some(hash)
  }

  /** The active templates in table order. */
  function ActiveOnly(ts: seq<TemplateRow>): seq<TemplateRow>
  {
    if ts == [] then []
    else (if ts[0].isActive then [ts[0]] else []) + ActiveOnly(ts[1..])
  }

  /** ActiveOnly keeps exactly the active rows, in their table order. */
  lemma {:induction false} ActiveOnlyMembers(ts: seq<TemplateRow>)
    ensures forall t :: t in ActiveOnly(ts) <==> t in ts && t.isActive
    ensures |ActiveOnly(ts)| <= |ts|
  {
    if ts != [] {
      ActiveOnlyMembers(ts[1..]);
      assert ts == [ts[0]] + ts[1..];
    }
  }

  /** The templates table after one more use of the template with the id. */
  function WithUse(ts: seq<TemplateRow>, id: nat): seq<TemplateRow>
  {
    seq(|ts|, i requires 0 <= i < |ts| => if ts[i].id == id then ts[i].(useCount := ts[i].useCount + 1) else ts[i])
  }

  class Database {
    /** Whether `connect()` has set up a connection. */
    var open: bool
    /** users, keyed by funpay_user_id (UNIQUE). */
    var users: map<int, UserRow>
    var userSeq: nat
    /** messages; row id = position + 1. */
    var messages: seq<MessageRow>
    /** orders, keyed by order_id (UNIQUE). */
    var orders: map<string, OrderRow>
    var orderSeq: nat
    /** templates; row id = position + 1. */
    var templates: seq<TemplateRow>

    /** The schema's constraints. */
    ghost predicate Valid()
      reads this
    {
      (forall i, j :: 0 <= i < j < |messages| && messages[i].hash.Some? ==> messages[i].hash != messages[j].hash) &&
      (forall k :: k in orders ==> orders[k].orderId == k && orders[k].id < orderSeq) &&
      (forall k :: k in users ==> users[k].id < userSeq) &&
      (forall i :: 0 <= i < |templates| ==> templates[i].id == i + 1) &&
      (forall i, j :: 0 <= i < j < |templates| ==> templates[i].name != templates[j].name)
    }

    /** A database object before `connect()`, with empty tables. */
    constructor ()
      ensures Valid() && !open
      ensures users == map[] && messages == [] && orders == map[] && templates == []
    {
      open := false;
      users, userSeq := map[], 1;
      messages := [];
      orders, orderSeq := map[], 1;
      templates := [];
    }

    /**
     * connect: a connection is set up. Only the connection is modelled: the
     * tables keep the rows this object already holds.
     */
    method Connect()
      modifies this`open
      ensures open
    {
      open := true;
    }

    /**
     * message_exists_by_hash: true iff some message row carries the hash;
     * a failing lookup is reported as false (it fails open).
     */
    method MessageExistsByHash(hash: string) returns (found: bool)
      ensures found <==> open && HasHash(messages, hash)
    {
      if !open {
        return false;
      }
      var i := 0;
      while i < |messages|
        invariant 0 <= i <= |messages|
        invariant forall j :: 0 <= j < i ==> messages[j].hash != Some(hash)
      {
        if messages[i].hash == Some(hash) {
          return true;
        }
        i := i + 1;
      }
      return false;
    }

    /**
     * add_or_update_user: inserts the user, or on a funpay_user_id
     * conflict replaces its username and last_seen and keeps its counters;
     * returns the row id.
     */
    method AddOrUpdateUser(funpayUserId: int, username: string, now: int) returns (r: DbResult<nat>)
      requires Valid()
      modifies this`users, this`userSeq
      ensures Valid()
      ensures r.DbError? <==> !old(open)
      ensures r.DbError? ==> users == old(users) && userSeq == old(userSeq)
      ensures r.Done? && funpayUserId in old(users) ==>
        var u := old(users)[funpayUserId];
        users == old(users)[funpayUserId := u.(username := username, lastSeen := now)] &&
        r.value == u.id
      ensures r.Done? && funpayUserId !in old(users) ==>
        users == old(users)[funpayUserId := UserRow(old(userSeq), username, now, 0, 0)] &&
        r.value == old(userSeq)
    {
      if !open {
        return DbError;
      }
      if funpayUserId in users {
        var u := users[funpayUserId];
        users := users[funpayUserId := u.(username := username, lastSeen := now)];
        return Done(u.id);
      }
      users := users[funpayUserId := UserRow(userSeq, username, now, 0, 0)];
      r := Done(userSeq);
      userSeq := userSeq + 1;
    }

    /** The user counters after one more message or order by `author`; no row, no change. */
    static function Credit(users: map<int, UserRow>, author: int, message: bool): (r: map<int, UserRow>)
      ensures r.Keys == users.Keys
      ensures forall k :: k in users && k != author ==> r[k] == users[k]
    {
      if author !in users then users
      else if message then users[author := users[author].(totalMessages := users[author].totalMessages + 1)]
      else users[author := users[author].(totalOrders := users[author].totalOrders + 1)]
    }

    /**
     * add_message: with a truthy hash already stored it returns None and
     * writes nothing; an insert that would break the UNIQUE hash column
     * (an empty hash, or a lookup that failed open) is reported as None too;
     * otherwise the row is appended, its id returned and the author's
     * total_messages incremented. Any other failure is raised.
     */
    method AddMessage(chatId: int, authorId: int, authorUsername: string, text: string,
                      isOutgoing: bool, hash: Option<string>) returns (r: DbResult<Option<nat>>)
      requires Valid()
      modifies this`messages, this`users
      ensures Valid()
      ensures r.DbError? <==> !old(open)
      ensures r == Done(None) <==> old(open) && hash.Some? && HasHash(old(messages), hash.value)
      ensures r.Done? && r.value.None? ==> messages == old(messages) && users == old(users)
      ensures r.DbError? ==> messages == old(messages) && users == old(users)
      ensures r.Done? && r.value.Some? ==>
        messages == old(messages) + [MessageRow(chatId, authorId, authorUsername, text, isOutgoing, hash)] &&
        r.value.value == |messages| &&
        users == Credit(old(users), authorId, true)
    {
      if Truthy(hash) {
        var seen := MessageExistsByHash(hash.value);
        if seen {
          return Done(None);
        }
      }
      if !open {
        return DbError;
      }
      if hash.Some? {
        var clash := MessageExistsByHash(hash.value);
        if clash {
          return Done(None);
        }
      }
      messages := messages + [MessageRow(chatId, authorId, authorUsername, text, isOutgoing, hash)];
      users := Credit(users, authorId, true);
      return Done(Some(|messages|));
    }

    /**
     * add_order: inserts the order with status "new", or on an order_id
     * conflict only touches updated_at (status, buyer and description stay);
     * either way the buyer's total_orders is incremented. Returns the row id.
     */
    method AddOrder(orderId: string, buyerId: int, buyerUsername: string, description: string, now: int)
      returns (r: DbResult<nat>)
      requires Valid()
      modifies this`orders, this`orderSeq, this`users
      ensures Valid()
      ensures r.DbError? <==> !old(open)
      ensures r.DbError? ==> orders == old(orders) && orderSeq == old(orderSeq) && users == old(users)
      ensures r.Done? ==> users == Credit(old(users), buyerId, false) && orders.Keys == old(orders).Keys + {orderId}
      ensures r.Done? && orderId in old(orders) ==>
        orders == old(orders)[orderId := old(orders)[orderId].(updatedAt := now)] &&
        r.value == old(orders)[orderId].id
      ensures r.Done? && orderId !in old(orders) ==>
        orders == old(orders)[orderId := OrderRow(old(orderSeq), orderId, buyerId, buyerUsername, description,
                                                  "new", now, None)] &&
        r.value == old(orderSeq)
    {
      if !open {
        return DbError;
      }
      if orderId in orders {
        var o := orders[orderId];
        orders := orders[orderId := o.(updatedAt := now)];
        r := Done(o.id);
      } else {
        orders := orders[orderId := OrderRow(orderSeq, orderId, buyerId, buyerUsername, description, "new", now, None)];
        r := Done(orderSeq);
        orderSeq := orderSeq + 1;
      }
      users := Credit(users, buyerId, false);
    }

    /**
     * update_order_status: sets the status and updated_at of the order, and
     * completed_at to now for "completed" and to NULL for anything else;
     * an unknown order_id updates nothing.
     */
    method UpdateOrderStatus(orderId: string, status: string, now: int) returns (ok: bool)
      requires Valid()
      modifies this`orders
      ensures Valid()
      ensures ok == old(open)
      ensures ok && orderId in old(orders) ==>
        orders == old(orders)[orderId := old(orders)[orderId].(status := status, updatedAt := now,
                                          completedAt := if status == "completed" then Some(now) else None)]
      ensures !ok || orderId !in old(orders) ==> orders == old(orders)
    {
      if !open {
        return false;
      }
      if orderId in orders {
        var completedAt := if status == "completed" then Some(now) else None;
        orders := orders[orderId := orders[orderId].(status := status, updatedAt := now, completedAt := completedAt)];
      }
      return true;
    }

    /**
     * get_active_orders: exactly the orders whose status is "new" or
     * "active", each once.
     */
    method GetActiveOrders() returns (r: DbResult<seq<OrderRow>>)
      requires Valid()
      ensures r.DbError? <==> !open
      ensures r.Done? ==> forall o :: o in r.value <==> o in orders.Values && IsActive(o.status)
      ensures r.Done? ==> forall i, j :: 0 <= i < j < |r.value| ==> r.value[i].orderId != r.value[j].orderId
    {
      if !open {
        return DbError;
      }
      var rows: seq<OrderRow> := [];
      var left := orders.Keys;
      while left != {}
        invariant left <= orders.Keys
        invariant forall o :: o in rows <==> o.orderId in orders.Keys - left && orders[o.orderId] == o && IsActive(o.status)
        invariant forall i, j :: 0 <= i < j < |rows| ==> rows[i].orderId != rows[j].orderId
        decreases left
      {
        var k :| k in left;
        if IsActive(orders[k].status) {
          rows := rows + [orders[k]];
        }
        left := left - {k};
      }
      return Done(rows);
    }

    /**
     * add_template: appends an active template with use_count 0 and returns
     * its id; a name already taken (UNIQUE) raises.
     */
    method AddTemplate(name: string, trigger: string, response: string) returns (r: DbResult<nat>)
      requires Valid()
      modifies this`templates
      ensures Valid()
      ensures r.DbError? <==> !old(open) || exists i :: 0 <= i < |old(templates)| && old(templates)[i].name == name
      ensures r.DbError? ==> templates == old(templates)
      ensures r.Done? ==> templates == old(templates) + [TemplateRow(r.value, name, trigger, response, true, 0)] &&
                          r.value == |templates|
    {
      if !open {
        return DbError;
      }
      for i := 0 to |templates|
        invariant forall j :: 0 <= j < i ==> templates[j].name != name
      {
        if templates[i].name == name {
          return DbError;
        }
      }
      templates := templates + [TemplateRow(|templates| + 1, name, trigger, response, true, 0)];
      return Done(|templates|);
    }

    /** get_active_templates: the active templates in table order. */
    method GetActiveTemplates() returns (r: DbResult<seq<TemplateRow>>)
      ensures r.DbError? <==> !open
      ensures r.Done? ==> r.value == ActiveOnly(templates)
    {
      if !open {
        return DbError;
      }
      var rows: seq<TemplateRow> := [];
      var i := |templates|;
      while i > 0
        invariant 0 <= i <= |templates|
        invariant rows == ActiveOnly(templates[i..])
      {
        i := i - 1;
        assert templates[i..][1..] == templates[i + 1..];
        rows := (if templates[i].isActive then [templates[i]] else []) + rows;
      }
      return Done(rows);
    }

    /** increment_template_usage: the template with the id gains one use; an unknown id changes nothing. */
    method IncrementTemplateUsage(id: nat) returns (ok: bool)
      requires Valid()
      modifies this`templates
      ensures Valid()
      ensures ok == old(open)
      ensures templates == if ok then WithUse(old(templates), id) else old(templates)
      ensures |templates| == |old(templates)|
      ensures forall i :: 0 <= i < |templates| ==>
        templates[i] == if ok && old(templates)[i].id == id
                        then old(templates)[i].(useCount := old(templates)[i].useCount + 1)
                        else old(templates)[i]
    {
      if !open {
        return false;
      }
      if 1 <= id <= |templates| {
        templates := templates[id - 1 := templates[id - 1].(useCount := templates[id - 1].useCount + 1)];
      }
      return true;
    }
  }
}
