/** The rows of the purchase-order tables (src/db/initSchema.js:193-223)
    and what PostgreSQL stores when an INSERT or UPDATE built by the
    generic helpers writes payload values into them: column defaults,
    NOT NULL, the status and estimate CHECK constraints, and the foreign
    key to `purchase_orders`. Other database-side rejections (unique
    po_number, NOT NULL on supplier_id and po_number, the other foreign
    keys, NOT NULL on the header cost columns, numeric casts of header
    columns) are an oracle, `Db`. */
module Rows {
  import opened Values
  import opened Inventory
  import Schemas

  /** A `purchase_orders` row. Its key is the map key of the store; the
      branch and status are what the services read, the other header
      columns are kept as the values written. */
  datatype Order = Order(branch: Id, status: string, header: map<string, Value>)

  /** A `purchase_order_estimates` row. */
  datatype Estimate = Estimate(order: Option<Id>, product: Option<Id>, quantity: int, totalCost: int, notes: Value)

  /** The outcome of a write query at the database, beyond what the model
      checks itself. */
  datatype Db = Accepts | Rejects(message: string)

  /** The error of a write that breaks NOT NULL, a CHECK or the order
      foreign key. */
  const ConstraintViolation := "violates a column constraint"

  /** The writable columns of each table, as `getExistingColumns` reports
      them (`id`, `created_at` and `updated_at` are not modelled as
      writable). */
  const OrderColumns: seq<string> :=
    ["supplier_id", "branch_id", "po_number", "status", "total_cost", "shipping_cost", "tipping_cost", "miscellaneous_cost"]
  const ItemColumns: seq<string> := ["purchase_order_id", "product_variant_id", "quantity", "cost_price"]
  const EstimateColumns: seq<string> :=
    ["purchase_order_id", "product_id", "estimated_quantity", "estimated_total_cost", "notes"]

  // ---------------------------------------------------------------- written values

  /** The value a query binds to column `c`, None when it does not write it. */
  function Written(cols: seq<string>, vals: seq<Value>, c: string): (w: Option<Value>)
    requires |cols| == |vals|
    ensures w.None? <==> c !in cols
    ensures w.Some? ==> exists i :: 0 <= i < |cols| && cols[i] == c && vals[i] == w.value
  {
    if cols == [] then None
    else if cols[0] == c then Some(vals[0])
    else
      var w := Written(cols[1..], vals[1..], c);
      assert w.Some? ==> exists i :: 0 <= i < |cols| - 1 && cols[1..][i] == c && vals[1..][i] == w.value;
      w
  }

  /** A nullable uuid column: undefined and null store null. */
  function AsId(v: Value): Option<Option<Id>>
  {
    match v
    case Undefined => Some(None)
    case Null => Some(None)
    case Str(s) => Some(Some(s))
    case _ => None
  }

  /** A NOT NULL integer or numeric column. */
  function AsNumber(v: Value, host: Host): Option<int>
  {
    CastNumber(v, host)
  }

  /** A nullable integer or numeric column. */
  function AsNullableNumber(v: Value, host: Host): Option<Option<int>>
  {
    if v == Undefined || v == Null then Some(None)
    else if CastNumber(v, host).Some? then Some(Some(CastNumber(v, host).value))
    else None
  }

  /** The new content of a column: the converted written value, or the
      current content when the column is not written; None when the value
      cannot be stored. */
  function Field<T>(w: Option<Value>, conv: Value -> Option<T>, current: T): Option<T>
  {
    if w.None? then Some(current) else conv(w.value)
  }

  /** The order foreign key holds. */
  predicate OrderRef(order: Option<Id>, orders: map<Id, Order>)
  {
    order.Some? ==> order.value in orders
  }

  // ---------------------------------------------------------------- purchase_order_items

  /** A new item row before the written columns: quantity defaults to 1 and
      cost_price to 0. */
  function NewItem(id: Id): Item
  {
    Item(id, None, None, 1, Some(0))
  }

  /** The item row after writing `vals` into `cols` of `base`. */
  function ItemRow(base: Item, cols: seq<string>, vals: seq<Value>, host: Host, orders: map<Id, Order>): (r: Option<Item>)
    requires |cols| == |vals|
    ensures r.Some? ==> r.value.id == base.id && OrderRef(r.value.order, orders)
    ensures r.Some? && "quantity" !in cols ==> r.value.quantity == base.quantity
    ensures r.Some? && "product_variant_id" !in cols ==> r.value.variant == base.variant
    ensures r.Some? && "purchase_order_id" !in cols ==> r.value.order == base.order
    ensures r.Some? && Written(cols, vals, "purchase_order_id").Some? && Written(cols, vals, "purchase_order_id").value.Str? ==>
      r.value.order == Some(Written(cols, vals, "purchase_order_id").value.s)
    ensures r.Some? && "cost_price" !in cols ==> r.value.costPrice == base.costPrice
    ensures Written(cols, vals, "quantity") == Some(Null) ==> r.None?
    ensures (forall c :: c in cols ==> c !in ItemColumns) ==> (r == Some(base) <==> OrderRef(base.order, orders))
  {
    var order := Field(Written(cols, vals, "purchase_order_id"), AsId, base.order);
    var variant := Field(Written(cols, vals, "product_variant_id"), AsId, base.variant);
    var quantity := Field(Written(cols, vals, "quantity"), v => AsNumber(v, host), base.quantity);
    var cost := Field(Written(cols, vals, "cost_price"), v => AsNullableNumber(v, host), base.costPrice);
    if order.Some? && variant.Some? && quantity.Some? && cost.Some? && OrderRef(order.value, orders) then
      Some(Item(base.id, order.value, variant.value, quantity.value, cost.value))
    else None
  }

  // ---------------------------------------------------------------- purchase_orders

  predicate IsStatus(s: string)
  {
    s in Schemas.PurchaseOrderStatuses
  }

  /** branch_id is NOT NULL. */
  function AsBranch(v: Value): Option<Id>
  {
    if v.Str? then Some(v.s) else None
  }

  /** status is NOT NULL and CHECKed against the five statuses. */
  function AsStatus(v: Value): Option<string>
  {
    if v.Str? && IsStatus(v.s) then Some(v.s) else None
  }

  /** The header columns written, over the current header. */
  function HeaderWrites(cols: seq<string>, vals: seq<Value>, header: map<string, Value>): (h: map<string, Value>)
    requires |cols| == |vals|
    ensures forall c :: c in h <==> c in header || (c in cols && c != "branch_id" && c != "status")
    ensures forall c :: c in header && c !in cols ==> h[c] == header[c]
    decreases |cols|
  {
    if cols == [] then header
    else
      var rest := HeaderWrites(cols[1..], vals[1..], header);
      assert forall c :: c in cols <==> c == cols[0] || c in cols[1..];
      if cols[0] == "branch_id" || cols[0] == "status" || cols[0] in cols[1..] then rest
      else rest[cols[0] := vals[0]]
  }

  /** The order row after writing `vals` into `cols` of `base`. */
  function OrderRow(base: Order, cols: seq<string>, vals: seq<Value>): (r: Option<Order>)
    requires |cols| == |vals|
    ensures r.Some? && "status" in cols ==> IsStatus(r.value.status)
    ensures r.Some? && "status" !in cols ==> r.value.status == base.status
    ensures r.Some? && "branch_id" !in cols ==> r.value.branch == base.branch
    ensures r.Some? ==> forall c :: c in base.header && c !in cols ==> c in r.value.header && r.value.header[c] == base.header[c]
  {
    var branch := Field(Written(cols, vals, "branch_id"), AsBranch, base.branch);
    var status := Field(Written(cols, vals, "status"), AsStatus, base.status);
    if branch.Some? && status.Some? then Some(Order(branch.value, status.value, HeaderWrites(cols, vals, base.header)))
    else None
  }

  /** A new order row: branch_id and status have no default. */
  function NewOrderRow(cols: seq<string>, vals: seq<Value>): (r: Option<Order>)
    requires |cols| == |vals|
    ensures r.Some? ==> IsStatus(r.value.status) && "branch_id" in cols
  {
    if "branch_id" in cols && "status" in cols then OrderRow(Order("", "", map[]), cols, vals) else None
  }

  // ---------------------------------------------------------------- purchase_order_estimates

  /** `CHECK (estimated_quantity > 0)` and `CHECK (estimated_total_cost >= 0)`. */
  predicate EstimateChecks(e: Estimate)
  {
    e.quantity > 0 && e.totalCost >= 0
  }

  /** The estimate row after writing `vals` into `cols` of `base`. */
  function EstimateRow(base: Estimate, cols: seq<string>, vals: seq<Value>, host: Host, orders: map<Id, Order>): (r: Option<Estimate>)
    requires |cols| == |vals|
    ensures r.Some? ==> EstimateChecks(r.value) && OrderRef(r.value.order, orders)
    ensures r.Some? && "purchase_order_id" !in cols ==> r.value.order == base.order
  {
    var order := Field(Written(cols, vals, "purchase_order_id"), AsId, base.order);
    var product := Field(Written(cols, vals, "product_id"), AsId, base.product);
    var quantity := Field(Written(cols, vals, "estimated_quantity"), v => AsNumber(v, host), base.quantity);
    var cost := Field(Written(cols, vals, "estimated_total_cost"), v => AsNumber(v, host), base.totalCost);
    var notes := if "notes" in cols then Written(cols, vals, "notes").value else base.notes;
    if order.Some? && product.Some? && quantity.Some? && cost.Some? && OrderRef(order.value, orders) then
      var e := Estimate(order.value, product.value, quantity.value, cost.value, notes);
      if EstimateChecks(e) then Some(e) else None
    else None
  }

  /** A new estimate row: quantity and total cost are NOT NULL with no
      default, so both must be written. */
  function NewEstimateRow(cols: seq<string>, vals: seq<Value>, host: Host, orders: map<Id, Order>): (r: Option<Estimate>)
    requires |cols| == |vals|
    ensures r.Some? ==> EstimateChecks(r.value) && "estimated_quantity" in cols && "estimated_total_cost" in cols
  {
    if "estimated_quantity" in cols && "estimated_total_cost" in cols then
      EstimateRow(Estimate(None, None, 0, 0, Null), cols, vals, host, orders)
    else None
  }

  /** Whatever is written, a stored estimate satisfies both CHECKs: a zero
      or negative quantity, or a negative total cost, is refused. */
  lemma EstimateCheckRefuses(base: Estimate, cols: seq<string>, vals: seq<Value>, host: Host, orders: map<Id, Order>, q: int)
    requires |cols| == |vals|
    requires Written(cols, vals, "estimated_quantity") == Some(Num(q)) && q <= 0
    ensures EstimateRow(base, cols, vals, host, orders).None?
    ensures NewEstimateRow(cols, vals, host, orders).None?
  {
  }
}
