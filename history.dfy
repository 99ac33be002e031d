/**
  The order history of models/history.py: a list of records kept newest
  first, at most 100 long, in a JSON file that every operation reads
  afresh and writes back. The file is the `file` field of a `HistoryStore`;
  the clock is a `now` parameter.
 */
module History {
  import opened Wrappers
  import opened PyDict

  /** One history record: string fields such as `order_id`, `type`, `osrid`, `status`, `created`, `updated`. */
  type Order = Dict<string>

  /** The history file as `load` finds it. */
  datatype HistoryFile = Absent | Unreadable | Stored(orders: seq<Order>)

  /** `load`: the stored list, or `[]` when the file is missing, unreadable or not JSON. */
  function Loaded(f: HistoryFile): (r: seq<Order>)
    ensures !f.Stored? ==> r == []
    ensures f.Stored? ==> r == f.orders
  {
    if f.Stored? then f.orders else []
  }

  /** The most records `add_order` keeps. */
  const MAX_ORDERS: nat := 100

  /** The record `add_order` builds, in its field order. */
  function NewRecord(orderId: string, orderType: string, osrid: string, status: string, created: string): (r: Order)
    ensures Keys(r) == ["order_id", "type", "osrid", "status", "created"]
    ensures Get(r, "order_id") == Some(orderId) && Get(r, "type") == Some(orderType)
    ensures Get(r, "osrid") == Some(osrid) && Get(r, "status") == Some(status) && Get(r, "created") == Some(created)
  {
    Lookup5("order_id", "type", "osrid", "status", "created", orderId, orderType, osrid, status, created);
    [("order_id", orderId), ("type", orderType), ("osrid", osrid), ("status", status), ("created", created)]
  }

  /** `orders.insert(0, record)` followed by `orders[:100]`. */
  function Added(orders: seq<Order>, record: Order): seq<Order> {
    var l := [record] + orders;
    if |l| <= MAX_ORDERS then l else l[..MAX_ORDERS]
  }

  /**
    The new record comes first and the list keeps at most 100 records;
    the earlier records follow in their old order, the oldest one
    dropping off when the list was full.
   */
  lemma AddedShape(orders: seq<Order>, record: Order)
    ensures var r := Added(orders, record);
      && r != [] && r[0] == record
      && |r| == (if |orders| < MAX_ORDERS then |orders| + 1 else MAX_ORDERS)
      && forall i :: 0 <= i < |r| - 1 ==> r[i + 1] == orders[i]
  {
  }

  /** Whether `o` is the record `update_status` changes for `orderId`. */
  predicate HasId(o: Order, orderId: string) {
    Get(o, "order_id") == Some(orderId)
  }

  /** The record with its `status` and `updated` fields set. */
  function Restamped(o: Order, status: string, now: string): (r: Order)
    ensures Get(r, "status") == Some(status) && Get(r, "updated") == Some(now)
    ensures forall k :: k != "status" && k != "updated" ==> Get(r, k) == Get(o, k)
  {
    Put(Put(o, "status", status), "updated", now)
  }

  /** Where the first record with `orderId` is; `|orders|` when there is none. */
  function FirstWithId(orders: seq<Order>, orderId: string): (i: nat)
    ensures i <= |orders|
    ensures i < |orders| ==> HasId(orders[i], orderId)
    ensures forall j :: 0 <= j < i ==> !HasId(orders[j], orderId)
  {
    if orders == [] then 0
    else if HasId(orders[0], orderId) then 0
    else
      var i := FirstWithId(orders[1..], orderId);
      assert forall j :: 1 <= j <= i ==> orders[j] == orders[1..][j - 1];
      i + 1
  }

  /** The first match is the one a scan from the front stops at. */
  lemma {:induction false} FirstWithIdAt(orders: seq<Order>, orderId: string, i: nat)
    requires i <= |orders|
    requires forall j :: 0 <= j < i ==> !HasId(orders[j], orderId)
    requires i < |orders| ==> HasId(orders[i], orderId)
    ensures FirstWithId(orders, orderId) == i
  {
    var f := FirstWithId(orders, orderId);
    assert f < |orders| ==> HasId(orders[f], orderId);
  }

  /** The list `update_status` writes back. */
  function StatusUpdated(orders: seq<Order>, orderId: string, status: string, now: string): (r: seq<Order>)
    ensures |r| == |orders|
  {
    var i := FirstWithId(orders, orderId);
    if i < |orders| then orders[i := Restamped(orders[i], status, now)] else orders
  }

  /**
    Only the first record with a matching `order_id` changes; it gets the
    new `status` and an `updated` stamp and keeps its other fields. With no
    match the list is as it was.
   */
  lemma {:induction false} StatusUpdatedFirstOnly(orders: seq<Order>, orderId: string, status: string, now: string)
    ensures var r := StatusUpdated(orders, orderId, status, now);
      && ((forall j :: 0 <= j < |orders| ==> !HasId(orders[j], orderId)) ==> r == orders)
      && forall i :: 0 <= i < |orders| && HasId(orders[i], orderId) && (forall j :: 0 <= j < i ==> !HasId(orders[j], orderId)) ==>
           && Get(r[i], "status") == Some(status) && Get(r[i], "updated") == Some(now)
           && (forall k :: k != "status" && k != "updated" ==> Get(r[i], k) == Get(orders[i], k))
           && forall j :: 0 <= j < |orders| && j != i ==> r[j] == orders[j]
  {
    var f := FirstWithId(orders, orderId);
    forall i | 0 <= i < |orders| && HasId(orders[i], orderId) && (forall j :: 0 <= j < i ==> !HasId(orders[j], orderId))
      ensures i == f
    {
    }
  }

  /** `order.get("osrid") == osrid`. */
  predicate ForOsr(o: Order, osrid: string) {
    Get(o, "osrid") == Some(osrid)
  }

  /** The statuses `get_active_orders` offers for cancelling. */
  predicate IsActive(o: Order) {
    var s := Get(o, "status");
    s == Some("sent") || s == Some("processing") || s == Some("pending")
  }

  /** `get_orders_for_osr`: the records for `osrid`, in history order. */
  function OrdersForOsr(orders: seq<Order>, osrid: string): (r: seq<Order>)
    ensures |r| <= |orders|
    ensures forall o :: o in r <==> o in orders && ForOsr(o, osrid)
  {
    if orders == [] then []
    else
      assert orders == [orders[0]] + orders[1..];
      (if ForOsr(orders[0], osrid) then [orders[0]] else []) + OrdersForOsr(orders[1..], osrid)
  }

  /** `get_active_orders`: the records for `osrid` whose status is sent, processing or pending, in history order. */
  function ActiveOrders(orders: seq<Order>, osrid: string): (r: seq<Order>)
    ensures |r| <= |orders|
    ensures forall o :: o in r <==> o in orders && ForOsr(o, osrid) && IsActive(o)
  {
    if orders == [] then []
    else
      assert orders == [orders[0]] + orders[1..];
      (if ForOsr(orders[0], osrid) && IsActive(orders[0]) then [orders[0]] else []) + ActiveOrders(orders[1..], osrid)
  }

  /** Both queries keep history order: the result for a concatenation is the concatenation of the results. */
  lemma {:induction false} OrdersForOsrKeepsOrder(a: seq<Order>, b: seq<Order>, osrid: string)
    ensures OrdersForOsr(a + b, osrid) == OrdersForOsr(a, osrid) + OrdersForOsr(b, osrid)
    decreases |a|
  {
    if a == [] {
      assert a + b == b;
    } else {
      assert (a + b)[1..] == a[1..] + b;
      OrdersForOsrKeepsOrder(a[1..], b, osrid);
    }
  }

  lemma {:induction false} ActiveOrdersKeepOrder(a: seq<Order>, b: seq<Order>, osrid: string)
    ensures ActiveOrders(a + b, osrid) == ActiveOrders(a, osrid) + ActiveOrders(b, osrid)
    decreases |a|
  {
    if a == [] {
      assert a + b == b;
    } else {
      assert (a + b)[1..] == a[1..] + b;
      ActiveOrdersKeepOrder(a[1..], b, osrid);
    }
  }

  /** The orders offered for cancelling are the active ones among the orders listed for the OSR. */
  function ActiveOnly(orders: seq<Order>): (r: seq<Order>)
    ensures |r| <= |orders|
  {
    if orders == [] then []
    else (if IsActive(orders[0]) then [orders[0]] else []) + ActiveOnly(orders[1..])
  }

  lemma {:induction false} ActiveAmongListed(orders: seq<Order>, osrid: string)
    ensures ActiveOrders(orders, osrid) == ActiveOnly(OrdersForOsr(orders, osrid))
    decreases |orders|
  {
    if orders != [] {
      ActiveAmongListed(orders[1..], osrid);
      var head := if ForOsr(orders[0], osrid) then [orders[0]] else [];
      var tail := OrdersForOsr(orders[1..], osrid);
      ActiveOnlyAppend(head, tail);
    }
  }

  lemma {:induction false} ActiveOnlyAppend(a: seq<Order>, b: seq<Order>)
    ensures ActiveOnly(a + b) == ActiveOnly(a) + ActiveOnly(b)
    decreases |a|
  {
    if a == [] {
      assert a + b == b;
    } else {
      var h := if IsActive(a[0]) then [a[0]] else [];
      assert (a + b)[1..] == a[1..] + b;
      ActiveOnlyAppend(a[1..], b);
      SeqAssoc(h, ActiveOnly(a[1..]), ActiveOnly(b));
    }
  }

  /** Concatenation regroups. */
  lemma SeqAssoc<T>(x: seq<T>, y: seq<T>, z: seq<T>)
    ensures x + (y + z) == (x + y) + z
  {
  }

  /** The fields `get_last_order` copies, each `None` when the newest record lacks it. */
  const LAST_ORDER_KEYS: seq<string> := ["order_id", "order_type", "osrid", "status", "created", "updated"]

  /** `get_last_order`: `{}` for an empty history, else the newest record's fields with `type` renamed `order_type`. */
  function LastOrder(orders: seq<Order>): (r: Dict<Option<string>>)
    ensures orders == [] <==> r == []
    ensures orders != [] ==> Keys(r) == LAST_ORDER_KEYS
    ensures orders != [] ==>
      && Get(r, "order_id") == Some(Get(orders[0], "order_id"))
      && Get(r, "order_type") == Some(Get(orders[0], "type"))
      && Get(r, "osrid") == Some(Get(orders[0], "osrid"))
      && Get(r, "status") == Some(Get(orders[0], "status"))
      && Get(r, "created") == Some(Get(orders[0], "created"))
      && Get(r, "updated") == Some(Get(orders[0], "updated"))
  {
    if orders == [] then []
    else
      var o := orders[0];
      Lookup6("order_id", "order_type", "osrid", "status", "created", "updated",
        Get(o, "order_id"), Get(o, "type"), Get(o, "osrid"), Get(o, "status"), Get(o, "created"), Get(o, "updated"));
      [("order_id", Get(o, "order_id")), ("order_type", Get(o, "type")), ("osrid", Get(o, "osrid")),
       ("status", Get(o, "status")), ("created", Get(o, "created")), ("updated", Get(o, "updated"))]
  }

  /** The history file; `writable` says whether `save` could open it (an IOError is swallowed). */
  class HistoryStore {
    var file: HistoryFile

    constructor(file: HistoryFile)
      ensures this.file == file
    {
      this.file := file;
    }

    function Orders(): seq<Order>
      reads this
    {
      Loaded(file)
    }

    /** `save`: the list is written when the file can be opened; otherwise nothing changes. */
    method Save(orders: seq<Order>, writable: bool)
      modifies this
      ensures file == if writable then Stored(orders) else old(file)
    {
      if writable {
        file := Stored(orders);
      }
    }

    /** `add_order`, with `now` standing for the `created` time stamp. */
    method AddOrder(orderId: string, orderType: string, osrid: string, status: string, now: string, writable: bool)
      modifies this
      ensures file == if writable then Stored(Added(old(Orders()), NewRecord(orderId, orderType, osrid, status, now))) else old(file)
    {
      var orders := Loaded(file);
      var record := NewRecord(orderId, orderType, osrid, status, now);
      orders := [record] + orders;
      if |orders| > MAX_ORDERS {
        orders := orders[..MAX_ORDERS];
      }
      Save(orders, writable);
    }

    /** `update_status`: the loop stops at the first record with the id. */
    method UpdateStatus(orderId: string, status: string, now: string, writable: bool)
      modifies this
      ensures file == if writable then Stored(StatusUpdated(old(Orders()), orderId, status, now)) else old(file)
    {
      var orders := Loaded(file);
      var i := 0;
      while i < |orders|
        invariant 0 <= i <= |orders|
        invariant orders == Loaded(file)
        invariant forall j :: 0 <= j < i ==> !HasId(orders[j], orderId)
      {
        if HasId(orders[i], orderId) {
          FirstWithIdAt(orders, orderId, i);
          orders := orders[i := Restamped(orders[i], status, now)];
          break;
        }
        i := i + 1;
      }
      if i == |orders| {
        FirstWithIdAt(orders, orderId, i);
      }
      Save(orders, writable);
    }

    /** `get_active_orders`. */
    method GetActiveOrders(osrid: string) returns (r: seq<Order>)
      ensures r == ActiveOrders(Orders(), osrid)
    {
      r := ActiveOrders(Loaded(file), osrid);
    }

    /** `get_orders_for_osr`. */
    method GetOrdersForOsr(osrid: string) returns (r: seq<Order>)
      ensures r == OrdersForOsr(Orders(), osrid)
    {
      r := OrdersForOsr(Loaded(file), osrid);
    }

    /** `get_last_order`. */
    method GetLastOrder() returns (r: Dict<Option<string>>)
      ensures r == LastOrder(Orders())
    {
      r := LastOrder(Loaded(file));
    }
  }
}
