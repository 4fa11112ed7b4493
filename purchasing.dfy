/** The purchase-order services (src/services/purchaseOrderService.js,
    purchaseOrderItemService.js, purchaseOrderEstimateService.js) over one
    database holding the orders, their items and estimates, the stock table
    and the movement ledger. Calls run one at a time. */
module Purchasing {
  import opened Values
  import opened Sorting
  import opened Inventory
  import opened Rows
  import Schemas
  import Helpers
  import Strings

  // ---------------------------------------------------------------- status transition

  /** `data && data.status ? data.status : prevStatus` */
  function NewStatus(prev: string, data: Option<Record>): (s: Value)
    ensures data.Some? && Truthy(Get(data.value, "status")) ==> s == Get(data.value, "status")
    ensures !(data.Some? && Truthy(Get(data.value, "status"))) ==> s == Str(prev)
  {
    if data.Some? && Truthy(Get(data.value, "status")) then Get(data.value, "status") else Str(prev)
  }

  /** `prevStatus !== 'received' && newStatus === 'received'` */
  predicate Triggers(prev: string, newStatus: Value)
  {
    prev != "received" && newStatus == Str("received")
  }

  /** Reconciliation runs exactly when the order is not yet received and
      the payload sets the status to 'received'; an order already received
      is never reconciled again by an update. */
  lemma TriggerCondition(prev: string, data: Option<Record>)
    ensures Triggers(prev, NewStatus(prev, data))
      <==> prev != "received" && data.Some? && Get(data.value, "status") == Str("received")
    ensures prev == "received" ==> !Triggers(prev, NewStatus(prev, data))
  {
  }

  /** A payload without a truthy status keeps the previous one. */
  lemma MissingStatusKeepsPrevious(prev: string, data: Record)
    requires Get(data, "status") in {Undefined, Null, Str(""), Bool(false)}
    ensures NewStatus(prev, Some(data)) == Str(prev)
    ensures !Triggers(prev, NewStatus(prev, Some(data)))
  {
  }

  // ---------------------------------------------------------------- reads

  /** `findById(poId)` of a purchase order. */
  function FindOrder(orders: map<Id, Order>, v: Value): (r: Option<Order>)
    ensures r.Some? <==> v.Str? && v.s in orders
    ensures r.Some? ==> r.value == orders[v.s]
  {
    if v.Str? && v.s in orders then Some(orders[v.s]) else None
  }

  /** The order an estimate belongs to, when it exists. */
  function Owner(orders: map<Id, Order>, e: Estimate): (r: Option<Order>)
    ensures r.Some? <==> e.order.Some? && e.order.value in orders
    ensures r.Some? ==> r.value == orders[e.order.value]
  {
    if e.order.Some? && e.order.value in orders then Some(orders[e.order.value]) else None
  }

  /** `WHERE purchase_order_id = $1` over the item table. */
  function ItemsOf(items: seq<Item>, id: Id): (r: seq<Item>)
    ensures forall it :: it in r <==> it in items && it.order == Some(id)
    ensures |r| <= |items|
  {
    if items == [] then []
    else
      var rest := ItemsOf(items[1..], id);
      assert forall it :: it in items <==> it == items[0] || it in items[1..];
      if items[0].order == Some(id) then [items[0]] + rest else rest
  }

  function ItemId(it: Item): string
  {
    it.id
  }

  /** The items the reconciliation reads: `list({ where:
      'purchase_order_id = $1', params: [id], limit: 1000, offset: 0 })`,
      which orders by id descending since the item table has no
      created_at column. */
  function OrderItems(items: seq<Item>, id: Id): (r: seq<Item>)
    ensures |r| <= ReconcileLimit
    ensures SortedDesc(r, ItemId)
    ensures forall it :: it in r ==> it in items && it.order == Some(id)
    ensures |ItemsOf(items, id)| <= ReconcileLimit ==> multiset(r) == multiset(ItemsOf(items, id))
  {
    Take(SortDesc(ItemsOf(items, id), ItemId), ReconcileLimit)
  }

  const ReconcileLimit := 1000

  /** `ORDER BY id DESC LIMIT 1000` keeps the items with the largest ids:
      no item left out has an id larger than one kept. */
  lemma OrderItemsKeepLargest(items: seq<Item>, id: Id)
    ensures forall a, b ::
      (a in OrderItems(items, id) && b in ItemsOf(items, id) && b !in OrderItems(items, id)
      ==> !Strings.Less(a.id, b.id))
  {
    var sorted := SortDesc(ItemsOf(items, id), ItemId);
    var r := OrderItems(items, id);
    assert r == Take(sorted, ReconcileLimit);
    forall a, b | a in r && b in ItemsOf(items, id) && b !in r ensures !Strings.Less(a.id, b.id) {
      assert b in multiset(ItemsOf(items, id));
      assert b in multiset(sorted);
      var jb :| 0 <= jb < |sorted| && sorted[jb] == b;
      var ia :| 0 <= ia < |r| && r[ia] == a;
      assert sorted[ia] == a;
      assert |r| <= jb;
      assert !Strings.Less(ItemId(sorted[ia]), ItemId(sorted[jb]));
    }
  }

  /** Items beyond the first 1000 of the listing are never reconciled. */
  lemma ReconcileReadsAtMostLimit(items: seq<Item>, id: Id)
    ensures |OrderItems(items, id)| == if |ItemsOf(items, id)| < ReconcileLimit then |ItemsOf(items, id)| else ReconcileLimit
  {
  }

  // ---------------------------------------------------------------- writes through the helpers

  /** `purchaseOrdersModel.edit(id, data)`: the update query, then the row
      the database stores. */
  function EditOrder(orders: map<Id, Order>, id: Id, data: Option<Record>, host: Host, db: Db): (r: Result<Order>)
    requires id in orders
    ensures r.Ok? ==> Helpers.UpdatePlan("purchase_orders", id, data, OrderColumns, host).Ok? && db == Accepts
    ensures r.Ok? && IsStatus(orders[id].status) ==> IsStatus(r.value.status)
    ensures Helpers.UpdatePlan("purchase_orders", id, data, OrderColumns, host).Err? ==>
      r == Err(Helpers.UpdatePlan("purchase_orders", id, data, OrderColumns, host).message)
  {
    match Helpers.UpdatePlan("purchase_orders", id, data, OrderColumns, host)
    case Err(m) => Err(m)
    case Ok(q) =>
      if db.Rejects? then Err(db.message)
      else
        match OrderRow(orders[id], q.columns, q.values[1..])
        case None => Err(ConstraintViolation)
        case Some(o) => Ok(o)
  }

  /** `purchaseOrdersModel.create(data)`. */
  function InsertOrder(orders: map<Id, Order>, newId: Id, data: Option<Record>, host: Host, db: Db): (r: Result<Order>)
    ensures data.None? ==> r == Err("No data provided")
    ensures r.Ok? ==> Helpers.InsertPlan("purchase_orders", data, OrderColumns, host).Ok? && db == Accepts
    ensures r.Ok? ==> IsStatus(r.value.status) && newId !in orders
  {
    match Helpers.InsertPlan("purchase_orders", data, OrderColumns, host)
    case Err(m) => Err(m)
    case Ok(q) =>
      if db.Rejects? then Err(db.message)
      else if newId in orders then Err(ConstraintViolation)
      else
        match NewOrderRow(q.columns, q.values)
        case None => Err(ConstraintViolation)
        case Some(o) => Ok(o)
  }

  predicate HasItem(items: seq<Item>, id: Id)
  {
    exists i :: 0 <= i < |items| && items[i].id == id
  }

  /** `purchaseOrderItemsModel.create(data)`. */
  function InsertItem(orders: map<Id, Order>, items: seq<Item>, newId: Id, data: Record, host: Host, db: Db): (r: Result<Item>)
    ensures r.Ok? ==> Helpers.InsertPlan("purchase_order_items", Some(data), ItemColumns, host).Ok? && db == Accepts
    ensures r.Ok? ==> r.value.id == newId && !HasItem(items, newId) && OrderRef(r.value.order, orders)
    ensures r.Ok? && Get(data, "purchase_order_id").Str? ==> r.value.order == Some(Get(data, "purchase_order_id").s)
  {
    match Helpers.InsertPlan("purchase_order_items", Some(data), ItemColumns, host)
    case Err(m) => Err(m)
    case Ok(q) =>
      WrittenFromPayload(data, q.columns, q.values, "purchase_order_id");
      if db.Rejects? then Err(db.message)
      else if HasItem(items, newId) then Err(ConstraintViolation)
      else
        match ItemRow(NewItem(newId), q.columns, q.values, host, orders)
        case None => Err(ConstraintViolation)
        case Some(it) => Ok(it)
  }

  /** A payload key that is a column of the query is written with the payload's value. */
  lemma WrittenFromPayload(data: Record, cols: seq<string>, vals: seq<Value>, k: string)
    requires cols == Helpers.KeepColumns(Keys(data), ItemColumns) && |vals| == |cols|
    requires forall i :: 0 <= i < |cols| ==> vals[i] == Get(data, cols[i])
    requires k in ItemColumns
    ensures Get(data, k) != Undefined ==> Written(cols, vals, k) == Some(Get(data, k))
  {
    if Get(data, k) != Undefined {
      var i :| 0 <= i < |data| && data[i] == (k, Get(data, k));
      assert Keys(data)[i] == k;
      assert k in cols;
      var w := Written(cols, vals, k);
      var j :| 0 <= j < |cols| && cols[j] == k && vals[j] == w.value;
      assert w.value == Get(data, k);
    }
  }

  /** `purchaseOrderEstimatesModel.create(data)`: the estimates table has
      no schema, so only the database checks the payload. */
  function InsertEstimate(orders: map<Id, Order>, estimates: map<Id, Estimate>, newId: Id, data: Record, host: Host, db: Db): (r: Result<Estimate>)
    ensures r.Ok? ==> EstimateChecks(r.value) && OrderRef(r.value.order, orders) && newId !in estimates && db == Accepts
  {
    match Helpers.InsertPlan("purchase_order_estimates", Some(data), EstimateColumns, host)
    case Err(m) => Err(m)
    case Ok(q) =>
      if db.Rejects? then Err(db.message)
      else if newId in estimates then Err(ConstraintViolation)
      else
        match NewEstimateRow(q.columns, q.values, host, orders)
        case None => Err(ConstraintViolation)
        case Some(e) => Ok(e)
  }

  /** `purchaseOrderEstimatesModel.edit(id, data)`. */
  function EditEstimate(orders: map<Id, Order>, id: Id, e: Estimate, data: Option<Record>, host: Host, db: Db): (r: Result<Estimate>)
    ensures r.Ok? ==> EstimateChecks(r.value) && OrderRef(r.value.order, orders) && db == Accepts
  {
    match Helpers.UpdatePlan("purchase_order_estimates", id, data, EstimateColumns, host)
    case Err(m) => Err(m)
    case Ok(q) =>
      if db.Rejects? then Err(db.message)
      else
        match EstimateRow(e, q.columns, q.values[1..], host, orders)
        case None => Err(ConstraintViolation)
        case Some(e') => Ok(e')
  }

  /** The position of the item with this id. */
  function IndexOfItem(items: seq<Item>, id: Id): (r: Option<nat>)
    ensures r.Some? ==> r.value < |items| && items[r.value].id == id
    ensures r.None? <==> !HasItem(items, id)
  {
    if items == [] then None
    else if items[0].id == id then Some(0)
    else
      var r := IndexOfItem(items[1..], id);
      assert HasItem(items[1..], id) ==> HasItem(items, id) by {
        if HasItem(items[1..], id) {
          var i :| 0 <= i < |items[1..]| && items[1..][i].id == id;
          assert items[i + 1].id == id;
        }
      }
      assert HasItem(items, id) ==> HasItem(items[1..], id) by {
        if HasItem(items, id) {
          var i :| 0 <= i < |items| && items[i].id == id;
          assert i > 0 && items[1..][i - 1].id == id;
        }
      }
      if r.Some? then Some(r.value + 1) else None
  }

  /** `purchaseOrderItemsModel.edit(id, data)`: None is the `undefined` of
      an update that matched no row. */
  function EditItem(orders: map<Id, Order>, items: seq<Item>, id: Id, data: Option<Record>, host: Host, db: Db): (r: Result<Option<Item>>)
    ensures r.Ok? ==> Helpers.UpdatePlan("purchase_order_items", id, data, ItemColumns, host).Ok? && db == Accepts
    ensures r.Ok? && r.value.Some? ==> HasItem(items, id) && r.value.value.id == id && OrderRef(r.value.value.order, orders)
    ensures r == Ok(None) <==> (Helpers.UpdatePlan("purchase_order_items", id, data, ItemColumns, host).Ok?
      && db == Accepts && !HasItem(items, id))
  {
    match Helpers.UpdatePlan("purchase_order_items", id, data, ItemColumns, host)
    case Err(m) => Err(m)
    case Ok(q) =>
      if db.Rejects? then Err(db.message)
      else
        match IndexOfItem(items, id)
        case None => Ok(None)
        case Some(i) =>
          match ItemRow(items[i], q.columns, q.values[1..], host, orders)
          case None => Err(ConstraintViolation)
          case Some(it) => Ok(Some(it))
  }

  // ---------------------------------------------------------------- guards

  const ItemNeedsReceived := "purchase_order_items can only be added when purchase order status is \"received\""
  const CannotAddEstimate := "Cannot add estimate to a received purchase order"
  const CannotModifyEstimate := "Cannot modify estimate for a received purchase order"
  const CannotRemoveEstimate := "Cannot remove estimate from a received purchase order"

  /** The checks of item `create` before the insert, in order. */
  function ItemGate(orders: map<Id, Order>, data: Record): (r: Option<string>)
    ensures r.None? <==> (Truthy(Get(data, "purchase_order_id"))
      && FindOrder(orders, Get(data, "purchase_order_id")).Some?
      && FindOrder(orders, Get(data, "purchase_order_id")).value.status == "received")
  {
    var poId := Get(data, "purchase_order_id");
    if !Truthy(poId) then Some("purchase_order_id is required")
    else
      match FindOrder(orders, poId)
      case None => Some("purchase order not found")
      case Some(po) => if po.status != "received" then Some(ItemNeedsReceived) else None
  }

  /** The checks of estimate `create` before the insert, in order. */
  function EstimateCreateGate(orders: map<Id, Order>, data: Record): (r: Option<string>)
    ensures r.None? <==> (Truthy(Get(data, "purchase_order_id"))
      && FindOrder(orders, Get(data, "purchase_order_id")).Some?
      && FindOrder(orders, Get(data, "purchase_order_id")).value.status != "received")
  {
    var poId := Get(data, "purchase_order_id");
    if !Truthy(poId) then Some("purchase_order_id is required")
    else
      match FindOrder(orders, poId)
      case None => Some("purchase order not found")
      case Some(po) => if po.status == "received" then Some(CannotAddEstimate) else None
  }

  /** The checks of estimate `update` once the estimate exists. */
  function EstimateUpdateGate(orders: map<Id, Order>, e: Estimate): (r: Option<string>)
    ensures r.None? <==> Owner(orders, e).Some? && Owner(orders, e).value.status != "received"
  {
    match Owner(orders, e)
    case None => Some("purchase order not found")
    case Some(po) => if po.status == "received" then Some(CannotModifyEstimate) else None
  }

  /** The check of estimate `remove` once the estimate exists. */
  function EstimateRemoveGate(orders: map<Id, Order>, e: Estimate): (r: Option<string>)
    ensures r.None? <==> Owner(orders, e).None? || Owner(orders, e).value.status != "received"
  {
    var po := Owner(orders, e);
    if po.Some? && po.value.status == "received" then Some(CannotRemoveEstimate) else None
  }

  /** The estimate guards: the missing id comes first, then the missing
      order, then 'received'; and 'received' is the only status that blocks
      -- draft, estimated, ordered and cancelled orders all let it through. */
  lemma EstimateGuardsOnlyBlockReceived(orders: map<Id, Order>, data: Record, e: Estimate)
    ensures !Truthy(Get(data, "purchase_order_id")) ==> EstimateCreateGate(orders, data) == Some("purchase_order_id is required")
    ensures Truthy(Get(data, "purchase_order_id")) && FindOrder(orders, Get(data, "purchase_order_id")).None? ==>
      EstimateCreateGate(orders, data) == Some("purchase order not found")
    ensures forall s :: s in Schemas.PurchaseOrderStatuses && s != "received" ==>
      ((Truthy(Get(data, "purchase_order_id")) && FindOrder(orders, Get(data, "purchase_order_id")).Some?
        && FindOrder(orders, Get(data, "purchase_order_id")).value.status == s)
        ==> EstimateCreateGate(orders, data).None?)
    ensures Owner(orders, e).Some? ==>
      (EstimateUpdateGate(orders, e).Some? <==> Owner(orders, e).value.status == "received")
      && (EstimateRemoveGate(orders, e).Some? <==> Owner(orders, e).value.status == "received")
  {
  }

  /** The update gate looks only at the estimate's current owner, and the
      edit may rewrite `purchase_order_id`: an estimate of an order that is
      not received can be moved into a received one. */
  lemma MoveIntoReceived(orders: map<Id, Order>, id: Id, e: Estimate, a: Id, b: Id, host: Host)
    requires a in orders && orders[a].status != "received"
    requires b in orders && orders[b].status == "received"
    requires e.order == Some(a) && EstimateChecks(e)
    ensures EstimateUpdateGate(orders, e).None?
    ensures EditEstimate(orders, id, e, Some([("purchase_order_id", Str(b))]), host, Accepts) == Ok(e.(order := Some(b)))
  {
    OwnerUpdatePlan(id, b, host);
    assert EstimateRow(e, ["purchase_order_id"], [Str(b)], host, orders) == Some(e.(order := Some(b)));
  }

  /** The query that rewrites only `purchase_order_id` of an estimate. */
  lemma OwnerUpdatePlan(id: Id, b: Id, host: Host)
    ensures Helpers.UpdatePlan("purchase_order_estimates", id, Some([("purchase_order_id", Str(b))]), EstimateColumns, host)
      == Ok(Helpers.UpdateQuery("purchase_order_estimates", id, ["purchase_order_id"], [Str(id), Str(b)]))
  {
    var data: Record := [("purchase_order_id", Str(b))];
    assert Keys(data) == ["purchase_order_id"];
    assert Helpers.KeepColumns(Keys(data), EstimateColumns) == ["purchase_order_id"];
    assert Schemas.Validate("purchase_order_estimates", data, false, host).None?;
    var r := Helpers.UpdatePlan("purchase_order_estimates", id, Some(data), EstimateColumns, host);
    assert Get(data, "purchase_order_id") == Str(b);
    assert r.Ok? && r.value.values == [Str(id), Str(b)];
  }

  /** When the owning order is missing, `remove` goes ahead but `update`
      refuses. */
  lemma MissingOwnerRemoveVersusUpdate(orders: map<Id, Order>, e: Estimate)
    requires Owner(orders, e).None?
    ensures EstimateRemoveGate(orders, e).None?
    ensures EstimateUpdateGate(orders, e) == Some("purchase order not found")
  {
  }

  /** The item gate accepts only a received order; every other status, a
      missing order and a missing id are refused with their own message. */
  lemma ItemGateMessages(orders: map<Id, Order>, data: Record)
    ensures !Truthy(Get(data, "purchase_order_id")) ==> ItemGate(orders, data) == Some("purchase_order_id is required")
    ensures Truthy(Get(data, "purchase_order_id")) && FindOrder(orders, Get(data, "purchase_order_id")).None? ==>
      ItemGate(orders, data) == Some("purchase order not found")
    ensures (FindOrder(orders, Get(data, "purchase_order_id")).Some? && Truthy(Get(data, "purchase_order_id"))
      && FindOrder(orders, Get(data, "purchase_order_id")).value.status != "received") ==>
      ItemGate(orders, data) == Some(ItemNeedsReceived)
  {
  }

  // ---------------------------------------------------------------- the store

  class PurchasingStore {
    var orders: map<Id, Order>
    var items: seq<Item>
    var estimates: map<Id, Estimate>
    var stock: map<StockKey, Stock>
    var movements: seq<Movement>

    /** The constraints the tables declare: item ids are unique, items and
        estimates reference existing orders, statuses pass the CHECK and
        estimates their two CHECKs. */
    ghost predicate Valid()
      reads this
    {
      && DistinctIds(items)
      && ItemsReferenceOrders(items, orders)
      && EstimatesValid(estimates, orders)
      && StatusesValid(orders)
    }

    function Books(): Books
      reads this
    {
      Inventory.Books(stock, movements)
    }

    /** An empty database. */
    constructor ()
      ensures Valid()
      ensures orders == map[] && items == [] && estimates == map[]
      ensures stock == map[] && movements == []
    {
      orders := map[];
      items := [];
      estimates := map[];
      stock := map[];
      movements := [];
    }

    /** The ledger and stock step both services run for one item. */
    method ReceiveItem(branch: Id, orderId: Id, it: Item, f: Fault)
      modifies this
      ensures Books() == Receive(old(Books()), branch, orderId, it, f)
      ensures orders == old(orders) && items == old(items) && estimates == old(estimates)
    {
      if it.variant.None? || f == MovementFails {
        return;
      }
      var variant := it.variant.value;
      movements := movements + [Entry(branch, orderId, variant, it.quantity)];
      if f == StockFails {
        return;
      }
      var key := StockKey(branch, variant);
      if key in stock {
        var inv := stock[key];
        stock := stock[key := Stock(Some(OnHand(inv) + it.quantity), inv.reorderLevel)];
      } else {
        stock := stock[key := Stock(Some(it.quantity), Some(0))];
      }
    }

    /** The `for (const it of items)` loop: each item's ledger and stock
        step inside its own `try`, a failing item logged and skipped. */
    method ReceiveEach(branch: Id, orderId: Id, its: seq<Item>, fault: nat -> Fault)
      modifies this
      ensures Books() == ReceiveAll(old(Books()), branch, orderId, its, fault)
      ensures orders == old(orders) && items == old(items) && estimates == old(estimates)
    {
      var i := 0;
      while i < |its|
        invariant 0 <= i <= |its|
        invariant Books() == ReceiveAll(old(Books()), branch, orderId, its[..i], fault)
        invariant orders == old(orders) && items == old(items) && estimates == old(estimates)
      {
        ReceiveItem(branch, orderId, its[i], fault(i));
        assert its[..i + 1][..i] == its[..i];
        i := i + 1;
      }
      assert its[..|its|] == its;
    }

    /** `purchaseOrderService.update(id, data)`: None for an unknown order;
        otherwise the reconciliation when the status moves into 'received',
        then the header edit, whose outcome is returned. A failing item
        does not stop the loop, and the ledger and stock effects stay even
        when the edit fails. */
    method UpdateOrder(id: Id, data: Option<Record>, host: Host, fault: nat -> Fault, db: Db) returns (r: Option<Result<Order>>)
      requires Valid()
      modifies this
      ensures Valid()
      ensures items == old(items) && estimates == old(estimates)
      ensures id !in old(orders) ==> r.None? && orders == old(orders) && Books() == old(Books())
      ensures id in old(orders) && Triggers(old(orders[id]).status, NewStatus(old(orders[id]).status, data)) ==>
        Books() == ReceiveAll(old(Books()), old(orders[id]).branch, id, OrderItems(old(items), id), fault)
      ensures id in old(orders) && !Triggers(old(orders[id]).status, NewStatus(old(orders[id]).status, data)) ==>
        Books() == old(Books())
      ensures id in old(orders) ==> r == Some(EditOrder(old(orders), id, data, host, db))
      ensures id in old(orders) && r.value.Ok? ==> orders == old(orders)[id := r.value.value]
      ensures id in old(orders) && r.value.Err? ==> orders == old(orders)
    {
      if id !in orders {
        return None;
      }
      var existing := orders[id];
      var newStatus := NewStatus(existing.status, data);
      if Triggers(existing.status, newStatus) {
        var its := OrderItems(items, id);
        ReceiveEach(existing.branch, id, its, fault);
      }
      var edited := EditOrder(orders, id, data, host, db);
      if edited.Ok? {
        ReplaceOrder(id, edited.value);
      }
      return Some(edited);
    }

    /** `purchaseOrderItemService.create(data)`: the three checks, the
        insert, then the ledger and stock step for the created item, whose
        failure is swallowed. */
    method CreateItem(data: Record, newId: Id, host: Host, db: Db, f: Fault) returns (r: Result<Item>)
      requires Valid()
      modifies this
      ensures Valid()
      ensures orders == old(orders) && estimates == old(estimates)
      ensures ItemGate(old(orders), data).Some? ==>
        r == Err(ItemGate(old(orders), data).value) && items == old(items) && Books() == old(Books())
      ensures ItemGate(old(orders), data).None? ==> r == InsertItem(old(orders), old(items), newId, data, host, db)
      ensures r.Err? ==> items == old(items) && Books() == old(Books())
      ensures r.Ok? ==> (ItemGate(old(orders), data).None?
        && r.value.order == Some(Get(data, "purchase_order_id").s)
        && items == old(items) + [r.value]
        && Books() == Receive(old(Books()), old(orders)[Get(data, "purchase_order_id").s].branch,
                              Get(data, "purchase_order_id").s, r.value, f))
    {
      var gate := ItemGate(orders, data);
      if gate.Some? {
        return Err(gate.value);
      }
      var poId := Get(data, "purchase_order_id").s;
      var po := orders[poId];
      var created := InsertItem(orders, items, newId, data, host, db);
      if created.Err? {
        return created;
      }
      items := items + [created.value];
      ReceiveItem(po.branch, poId, created.value, f);
      return created;
    }

    /** `purchaseOrderItemService.update(id, data)`: no status check, and
        the ledger and stock are never touched. */
    method UpdateItem(id: Id, data: Option<Record>, host: Host, db: Db) returns (r: Result<Option<Item>>)
      requires Valid()
      modifies this
      ensures Valid()
      ensures orders == old(orders) && estimates == old(estimates) && Books() == old(Books())
      ensures r == EditItem(old(orders), old(items), id, data, host, db)
      ensures (r.Err? || r == Ok(None)) ==> items == old(items)
      ensures r.Ok? && r.value.Some? ==>
        |items| == |old(items)| && IndexOfItem(old(items), id).Some?
        && items == old(items)[IndexOfItem(old(items), id).value := r.value.value]
    {
      r := EditItem(orders, items, id, data, host, db);
      if r.Ok? && r.value.Some? {
        ReplaceItem(IndexOfItem(items, id).value, r.value.value);
      }
    }

    /** Stores the edited row of order `id`. */
    method ReplaceOrder(id: Id, o: Order)
      requires Valid()
      requires id in orders && IsStatus(o.status)
      modifies this
      ensures Valid()
      ensures orders == old(orders)[id := o]
      ensures items == old(items) && estimates == old(estimates)
      ensures stock == old(stock) && movements == old(movements)
    {
      ReplaceOrderKeeps(orders, items, estimates, id, o);
      orders := orders[id := o];
    }

    /** Stores the edited row of estimate `id`. */
    method ReplaceEstimate(id: Id, e: Estimate)
      requires Valid()
      requires EstimateChecks(e) && OrderRef(e.order, orders)
      modifies this
      ensures Valid()
      ensures estimates == old(estimates)[id := e]
      ensures orders == old(orders) && items == old(items)
      ensures stock == old(stock) && movements == old(movements)
    {
      ReplaceEstimateKeeps(estimates, orders, id, e);
      estimates := estimates[id := e];
    }

    /** Stores the edited row of item `i`. */
    method ReplaceItem(i: nat, it: Item)
      requires Valid()
      requires i < |items| && it.id == items[i].id && OrderRef(it.order, orders)
      modifies this
      ensures Valid()
      ensures items == old(items)[i := it]
      ensures orders == old(orders) && estimates == old(estimates)
      ensures stock == old(stock) && movements == old(movements)
    {
      ReplaceItemKeeps(items, orders, i, it);
      items := items[i := it];
    }

    /** `purchaseOrderItemService.remove(id)`: the deleted row, or null; no
        status check and no ledger or stock change. */
    method RemoveItem(id: Id) returns (r: Option<Item>)
      requires Valid()
      modifies this
      ensures Valid()
      ensures orders == old(orders) && estimates == old(estimates) && Books() == old(Books())
      ensures r.None? <==> !HasItem(old(items), id)
      ensures r.None? ==> items == old(items)
      ensures r.Some? ==> (IndexOfItem(old(items), id).Some? && r.value == old(items)[IndexOfItem(old(items), id).value]
        && items == old(items)[..IndexOfItem(old(items), id).value] + old(items)[IndexOfItem(old(items), id).value + 1..])
    {
      var i := IndexOfItem(items, id);
      if i.None? {
        return None;
      }
      r := Some(items[i.value]);
      items := items[..i.value] + items[i.value + 1..];
    }

    /** `purchaseOrderEstimateService.create(data)`. */
    method CreateEstimate(data: Record, newId: Id, host: Host, db: Db) returns (r: Result<Estimate>)
      requires Valid()
      modifies this
      ensures Valid()
      ensures orders == old(orders) && items == old(items) && Books() == old(Books())
      ensures EstimateCreateGate(old(orders), data).Some? ==>
        r == Err(EstimateCreateGate(old(orders), data).value)
      ensures EstimateCreateGate(old(orders), data).None? ==>
        r == InsertEstimate(old(orders), old(estimates), newId, data, host, db)
      ensures r.Err? ==> estimates == old(estimates)
      ensures r.Ok? ==> estimates == old(estimates)[newId := r.value]
    {
      var gate := EstimateCreateGate(orders, data);
      if gate.Some? {
        return Err(gate.value);
      }
      r := InsertEstimate(orders, estimates, newId, data, host, db);
      if r.Ok? {
        estimates := estimates[newId := r.value];
      }
    }

    /** `purchaseOrderEstimateService.update(id, data)`: None for an
        unknown estimate. */
    method UpdateEstimate(id: Id, data: Option<Record>, host: Host, db: Db) returns (r: Option<Result<Estimate>>)
      requires Valid()
      modifies this
      ensures Valid()
      ensures orders == old(orders) && items == old(items) && Books() == old(Books())
      ensures id !in old(estimates) ==> r.None? && estimates == old(estimates)
      ensures id in old(estimates) && EstimateUpdateGate(old(orders), old(estimates)[id]).Some? ==>
        r == Some(Err(EstimateUpdateGate(old(orders), old(estimates)[id]).value))
      ensures id in old(estimates) && EstimateUpdateGate(old(orders), old(estimates)[id]).None? ==>
        r == Some(EditEstimate(old(orders), id, old(estimates)[id], data, host, db))
      ensures r.Some? && r.value.Ok? ==> estimates == old(estimates)[id := r.value.value]
      ensures !(r.Some? && r.value.Ok?) ==> estimates == old(estimates)
    {
      if id !in estimates {
        return None;
      }
      var existing := estimates[id];
      var gate := EstimateUpdateGate(orders, existing);
      if gate.Some? {
        return Some(Err(gate.value));
      }
      var edited := EditEstimate(orders, id, existing, data, host, db);
      if edited.Ok? {
        ReplaceEstimate(id, edited.value);
      }
      return Some(edited);
    }

    /** `purchaseOrderEstimateService.remove(id)`: None for an unknown
        estimate; a received owner refuses and the estimate stays. */
    method RemoveEstimate(id: Id) returns (r: Option<Result<Estimate>>)
      requires Valid()
      modifies this
      ensures Valid()
      ensures orders == old(orders) && items == old(items) && Books() == old(Books())
      ensures id !in old(estimates) ==> r.None? && estimates == old(estimates)
      ensures id in old(estimates) && EstimateRemoveGate(old(orders), old(estimates)[id]).Some? ==>
        r == Some(Err(CannotRemoveEstimate)) && estimates == old(estimates)
      ensures id in old(estimates) && EstimateRemoveGate(old(orders), old(estimates)[id]).None? ==>
        r == Some(Ok(old(estimates)[id])) && estimates == old(estimates) - {id}
    {
      if id !in estimates {
        return None;
      }
      var existing := estimates[id];
      var gate := EstimateRemoveGate(orders, existing);
      if gate.Some? {
        return Some(Err(gate.value));
      }
      estimates := estimates - {id};
      return Some(Ok(existing));
    }

    /** `purchaseOrderService.create(data)`. */
    method CreateOrder(data: Option<Record>, newId: Id, host: Host, db: Db) returns (r: Result<Order>)
      requires Valid()
      modifies this
      ensures Valid()
      ensures items == old(items) && estimates == old(estimates) && Books() == old(Books())
      ensures r == InsertOrder(old(orders), newId, data, host, db)
      ensures r.Ok? ==> orders == old(orders)[newId := r.value]
      ensures r.Err? ==> orders == old(orders)
    {
      r := InsertOrder(orders, newId, data, host, db);
      if r.Ok? {
        orders := orders[newId := r.value];
      }
    }

    /** `purchaseOrderService.remove(id)`: the database cascades the delete
        to the order's items and estimates; the ledger keeps its movements
        (reference_id is not a foreign key) and stock is untouched. */
    method RemoveOrder(id: Id) returns (r: Option<Order>)
      requires Valid()
      modifies this
      ensures Valid()
      ensures Books() == old(Books())
      ensures r == Helpers.FindRow(old(orders), id)
      ensures orders == old(orders) - {id}
      ensures forall it :: it in items <==> it in old(items) && it.order != Some(id)
      ensures forall k :: k in estimates <==> k in old(estimates) && old(estimates)[k].order != Some(id)
      ensures forall k :: k in estimates ==> estimates[k] == old(estimates)[k]
    {
      r := Helpers.FindRow(orders, id);
      if r.None? {
        assert forall i :: 0 <= i < |items| ==> items[i].order != Some(id);
        assert forall k :: k in estimates ==> estimates[k].order != Some(id);
        return;
      }
      orders := orders - {id};
      items := KeepOtherOrders(items, id);
      estimates := map k | k in estimates && estimates[k].order != Some(id) :: estimates[k];
    }
  }

  predicate ItemsReferenceOrders(items: seq<Item>, orders: map<Id, Order>)
  {
    forall i :: 0 <= i < |items| ==> OrderRef(items[i].order, orders)
  }

  predicate EstimatesValid(estimates: map<Id, Estimate>, orders: map<Id, Order>)
  {
    forall k :: k in estimates ==> EstimateChecks(estimates[k]) && OrderRef(estimates[k].order, orders)
  }

  predicate StatusesValid(orders: map<Id, Order>)
  {
    forall k :: k in orders ==> IsStatus(orders[k].status)
  }

  /** No two items share an id (the primary key). */
  predicate DistinctIds(items: seq<Item>)
  {
    forall i, j :: 0 <= i < j < |items| ==> items[i].id != items[j].id
  }

  /** An order replaced by a row with a valid status keeps the constraints:
      its items and estimates still find it. */
  lemma ReplaceOrderKeeps(orders: map<Id, Order>, items: seq<Item>, estimates: map<Id, Estimate>, id: Id, o: Order)
    requires id in orders && IsStatus(o.status)
    requires ItemsReferenceOrders(items, orders) && EstimatesValid(estimates, orders) && StatusesValid(orders)
    ensures ItemsReferenceOrders(items, orders[id := o]) && EstimatesValid(estimates, orders[id := o])
    ensures StatusesValid(orders[id := o])
  {
    assert orders[id := o].Keys == orders.Keys;
  }

  /** An item replaced by a row with the same id and a valid order
      reference keeps the constraints. */
  lemma ReplaceItemKeeps(items: seq<Item>, orders: map<Id, Order>, i: nat, it: Item)
    requires i < |items| && it.id == items[i].id && OrderRef(it.order, orders)
    requires DistinctIds(items) && ItemsReferenceOrders(items, orders)
    ensures DistinctIds(items[i := it]) && ItemsReferenceOrders(items[i := it], orders)
  {
    var r := items[i := it];
    assert forall j :: 0 <= j < |r| ==> r[j].id == items[j].id;
  }

  /** An estimate replaced by one that passes its CHECKs and references an
      existing order keeps the constraints. */
  lemma ReplaceEstimateKeeps(estimates: map<Id, Estimate>, orders: map<Id, Order>, id: Id, e: Estimate)
    requires EstimateChecks(e) && OrderRef(e.order, orders) && EstimatesValid(estimates, orders)
    ensures EstimatesValid(estimates[id := e], orders)
  {
  }

  /** A row whose id differs from every id of a sequence without duplicates
      may go in front. */
  lemma ConsDistinct(x: Item, rest: seq<Item>)
    requires DistinctIds(rest)
    requires forall it :: it in rest ==> it.id != x.id
    ensures DistinctIds([x] + rest)
  {
    var r := [x] + rest;
    forall i, j | 0 <= i < j < |r| ensures r[i].id != r[j].id {
      assert r[j] == rest[j - 1];
      if i > 0 {
        assert r[i] == rest[i - 1];
      }
    }
  }

  /** The items of other orders, in order. */
  function KeepOtherOrders(items: seq<Item>, id: Id): (r: seq<Item>)
    ensures forall it :: it in r <==> it in items && it.order != Some(id)
    ensures DistinctIds(items) ==> DistinctIds(r)
  {
    if items == [] then []
    else
      var rest := KeepOtherOrders(items[1..], id);
      assert forall it :: it in items <==> it == items[0] || it in items[1..];
      assert DistinctIds(items) ==> DistinctIds(items[1..]);
      if items[0].order != Some(id) then
        assert DistinctIds(items) ==> DistinctIds([items[0]] + rest) by {
          if DistinctIds(items) {
            forall it | it in rest ensures it.id != items[0].id {
              var k :| 0 <= k < |items[1..]| && items[1..][k] == it;
              assert items[k + 1] == it;
            }
            ConsDistinct(items[0], rest);
          }
        }
        [items[0]] + rest
      else
        rest
  }
}
