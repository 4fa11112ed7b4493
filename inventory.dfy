/** The stock side of purchase-order receiving: the append-only
    `inventory_movements` ledger and the `inventories` table, whose rows are
    unique per (branch, variant) (src/db/initSchema.js:126-144).

    `Receive` is what the services do for one purchase-order item, and
    `ReceiveAll` is the reconciliation loop over a list of items. The faults
    of the database calls inside the per-item `try` are an oracle: for the
    item at position i of the list, `fault(i)` says whether the movement
    insert failed, or the stock lookup/edit after it, or neither. */
module Inventory {
  import opened Values

  type Id = string

  /** The unique key of the `inventories` table. */
  datatype StockKey = StockKey(branch: Id, variant: Id)

  /** An `inventories` row: both columns are nullable integers. */
  datatype Stock = Stock(onHand: Option<int>, reorderLevel: Option<int>)

  /** The `inventory_movement_type` enum. */
  datatype MovementType = Sale | Restock | Return | Transfer | Adjustment

  datatype Movement = Movement(
    branch: Id,
    variant: Id,
    kind: MovementType,
    quantity: int,
    referenceType: string,
    referenceId: Id)

  /** A `purchase_order_items` row. The order and variant columns are
      nullable foreign keys; quantity is `INTEGER NOT NULL`; the cost price
      is a nullable NUMERIC(12,2), in cents. */
  datatype Item = Item(id: Id, order: Option<Id>, variant: Option<Id>, quantity: int, costPrice: Option<int>)

  /** What went wrong inside the per-item `try`: nothing, the movement insert
      (nothing is written), or the stock step after it (the movement stays). */
  datatype Fault = NoFault | MovementFails | StockFails

  datatype Books = Books(stock: map<StockKey, Stock>, movements: seq<Movement>)

  /** `inv.quantity_on_hand || 0` */
  function OnHand(s: Stock): int
  {
    if s.onHand.Some? then s.onHand.value else 0
  }

  /** The on-hand quantity of a key, 0 when it has no row. */
  function OnHandOf(stock: map<StockKey, Stock>, k: StockKey): int
  {
    if k in stock then OnHand(stock[k]) else 0
  }

  /** The stock upsert: an existing row gets `(quantity_on_hand || 0) + q`,
      a missing one is created holding `q` (reorder_level takes its column
      default 0). */
  function Upsert(stock: map<StockKey, Stock>, k: StockKey, q: int): (r: map<StockKey, Stock>)
    ensures r.Keys == stock.Keys + {k}
    ensures OnHandOf(r, k) == OnHandOf(stock, k) + q
    ensures k in stock ==> r[k].reorderLevel == stock[k].reorderLevel
    ensures k !in stock ==> r[k] == Stock(Some(q), Some(0))
    ensures forall k' :: k' in stock && k' != k ==> r[k'] == stock[k']
  {
    if k in stock then stock[k := Stock(Some(OnHand(stock[k]) + q), stock[k].reorderLevel)]
    else stock[k := Stock(Some(q), Some(0))]
  }

  /** The movement recorded for receiving `quantity` of `variant` into
      `branch` on behalf of purchase order `orderId`. */
  function Entry(branch: Id, orderId: Id, variant: Id, quantity: int): (m: Movement)
    ensures m.kind == Restock && m.referenceType == "purchase_order" && m.referenceId == orderId
  {
    Movement(branch, variant, Restock, quantity, "purchase_order", orderId)
  }

  /** One item: an item without a variant is skipped; otherwise the movement
      is appended and then the stock row of (branch, variant) upserted, each
      step only when the previous ones did not fail. */
  function Receive(b: Books, branch: Id, orderId: Id, it: Item, f: Fault): (r: Books)
    ensures b.movements <= r.movements && |r.movements| <= |b.movements| + 1
    ensures b.stock.Keys <= r.stock.Keys
    ensures forall k :: k in r.stock && (it.variant.None? || k != StockKey(branch, it.variant.value)) ==>
      k in b.stock && r.stock[k] == b.stock[k]
  {
    if it.variant.None? then b
    else
      match f
      case MovementFails => b
      case StockFails => Books(b.stock, b.movements + [Entry(branch, orderId, it.variant.value, it.quantity)])
      case NoFault =>
        Books(Upsert(b.stock, StockKey(branch, it.variant.value), it.quantity),
              b.movements + [Entry(branch, orderId, it.variant.value, it.quantity)])
  }

  /** The reconciliation loop: every item in list order, a failing one
      logged and skipped. */
  function ReceiveAll(b: Books, branch: Id, orderId: Id, its: seq<Item>, fault: nat -> Fault): (r: Books)
    ensures b.movements <= r.movements && |r.movements| <= |b.movements| + |its|
    ensures b.stock.Keys <= r.stock.Keys
    decreases |its|
  {
    if its == [] then b
    else
      var n := |its| - 1;
      Receive(ReceiveAll(b, branch, orderId, its[..n], fault), branch, orderId, its[n], fault(n))
  }

  // ---------------------------------------------------------------- reference sums

  /** The movements the loop appends, in item order. */
  function Entries(branch: Id, orderId: Id, its: seq<Item>, fault: nat -> Fault): (es: seq<Movement>)
    ensures |es| <= |its|
    ensures forall m :: m in es ==>
      m.branch == branch && m.kind == Restock && m.referenceType == "purchase_order" && m.referenceId == orderId
    decreases |its|
  {
    if its == [] then []
    else
      var n := |its| - 1;
      Entries(branch, orderId, its[..n], fault)
        + (if its[n].variant.Some? && fault(n) != MovementFails
           then [Entry(branch, orderId, its[n].variant.value, its[n].quantity)] else [])
  }

  /** The items that carry a variant, in order. */
  function WithVariant(its: seq<Item>): (ws: seq<Item>)
    ensures |ws| <= |its|
    ensures forall w :: w in ws ==> w in its && w.variant.Some?
    decreases |its|
  {
    if its == [] then []
    else
      var n := |its| - 1;
      WithVariant(its[..n]) + (if its[n].variant.Some? then [its[n]] else [])
  }

  /** One entry per item, in order. */
  function EntryList(branch: Id, orderId: Id, ws: seq<Item>): (es: seq<Movement>)
    requires forall w :: w in ws ==> w.variant.Some?
    ensures |es| == |ws|
    ensures forall j :: 0 <= j < |ws| ==> es[j] == Entry(branch, orderId, ws[j].variant.value, ws[j].quantity)
    decreases |ws|
  {
    if ws == [] then []
    else
      var n := |ws| - 1;
      EntryList(branch, orderId, ws[..n]) + [Entry(branch, orderId, ws[n].variant.value, ws[n].quantity)]
  }

  /** Quantity of `variant` whose stock step ran. */
  function Received(its: seq<Item>, fault: nat -> Fault, variant: Id): int
    decreases |its|
  {
    if its == [] then 0
    else
      var n := |its| - 1;
      Received(its[..n], fault, variant)
        + (if its[n].variant == Some(variant) && fault(n) == NoFault then its[n].quantity else 0)
  }

  /** Quantity of `variant` recorded in the ledger but not applied to stock. */
  function Dropped(its: seq<Item>, fault: nat -> Fault, variant: Id): int
    decreases |its|
  {
    if its == [] then 0
    else
      var n := |its| - 1;
      Dropped(its[..n], fault, variant)
        + (if its[n].variant == Some(variant) && fault(n) == StockFails then its[n].quantity else 0)
  }

  /** Some item of `variant` reached the stock step. */
  predicate Touched(its: seq<Item>, fault: nat -> Fault, variant: Id)
    decreases |its|
  {
    its != [] &&
      var n := |its| - 1;
      Touched(its[..n], fault, variant) || (its[n].variant == Some(variant) && fault(n) == NoFault)
  }

  /** The net quantity the ledger records for a key. */
  function LedgerQuantity(ms: seq<Movement>, k: StockKey): int
    decreases |ms|
  {
    if ms == [] then 0
    else
      var n := |ms| - 1;
      LedgerQuantity(ms[..n], k) + (if StockKey(ms[n].branch, ms[n].variant) == k then ms[n].quantity else 0)
  }

  // ---------------------------------------------------------------- lemmas

  /** The ledger only grows: the loop appends exactly `Entries` to it. */
  lemma {:induction false} ReceiveAllMovements(b: Books, branch: Id, orderId: Id, its: seq<Item>, fault: nat -> Fault)
    ensures ReceiveAll(b, branch, orderId, its, fault).movements == b.movements + Entries(branch, orderId, its, fault)
    decreases |its|
  {
    if its != [] {
      var n := |its| - 1;
      ReceiveAllMovements(b, branch, orderId, its[..n], fault);
    }
  }

  /** With no failed movement insert, every item with a variant appends
      exactly one movement, in item order: the order's branch, the item's
      variant and quantity, type restock, referencing the order. */
  lemma {:induction false} EntriesWithoutFaults(branch: Id, orderId: Id, its: seq<Item>, fault: nat -> Fault)
    requires forall i :: 0 <= i < |its| ==> fault(i) != MovementFails
    ensures Entries(branch, orderId, its, fault) == EntryList(branch, orderId, WithVariant(its))
    decreases |its|
  {
    if its != [] {
      var n := |its| - 1;
      EntriesWithoutFaults(branch, orderId, its[..n], fault);
      var ws := WithVariant(its[..n]);
      if its[n].variant.Some? {
        var ws' := ws + [its[n]];
        assert ws'[..|ws|] == ws;
        assert WithVariant(its) == ws';
      }
    }
  }

  /** Items without a variant change nothing. */
  lemma {:induction false} VariantlessItemsSkipped(b: Books, branch: Id, orderId: Id, its: seq<Item>, fault: nat -> Fault)
    requires forall i :: 0 <= i < |its| ==> its[i].variant.None?
    ensures ReceiveAll(b, branch, orderId, its, fault) == b
    decreases |its|
  {
    if its != [] {
      var n := |its| - 1;
      VariantlessItemsSkipped(b, branch, orderId, its[..n], fault);
    }
  }

  /** For a key of the order's branch: the final on-hand quantity is the
      initial one (a missing row or a null counted as 0) plus the quantities
      of that variant whose stock step ran; the row exists afterwards exactly
      when it existed before or such an item exists; a row no item reached
      is unchanged, and a row the loop created has reorder level 0. */
  lemma {:induction false} ReceiveAllStock(b: Books, branch: Id, orderId: Id, its: seq<Item>, fault: nat -> Fault, v: Id)
    ensures var r := ReceiveAll(b, branch, orderId, its, fault).stock;
      var k := StockKey(branch, v);
      && OnHandOf(r, k) == OnHandOf(b.stock, k) + Received(its, fault, v)
      && (k in r <==> k in b.stock || Touched(its, fault, v))
      && (!Touched(its, fault, v) && k in b.stock ==> r[k] == b.stock[k])
      && (k !in b.stock && k in r ==> r[k].reorderLevel == Some(0))
    decreases |its|
  {
    if its != [] {
      var n := |its| - 1;
      ReceiveAllStock(b, branch, orderId, its[..n], fault, v);
    }
  }

  /** Rows of other branches are untouched. */
  lemma {:induction false} ReceiveAllOtherBranches(b: Books, branch: Id, orderId: Id, its: seq<Item>, fault: nat -> Fault, k: StockKey)
    requires k.branch != branch
    ensures var r := ReceiveAll(b, branch, orderId, its, fault).stock;
      (k in r <==> k in b.stock) && (k in r ==> r[k] == b.stock[k])
    decreases |its|
  {
    if its != [] {
      var n := |its| - 1;
      ReceiveAllOtherBranches(b, branch, orderId, its[..n], fault, k);
    }
  }

  /** The ledger records, for a key of the order's branch, what reached the
      stock plus what a failed stock step dropped. */
  lemma {:induction false} LedgerSplits(branch: Id, orderId: Id, its: seq<Item>, fault: nat -> Fault, v: Id)
    ensures LedgerQuantity(Entries(branch, orderId, its, fault), StockKey(branch, v))
      == Received(its, fault, v) + Dropped(its, fault, v)
    decreases |its|
  {
    if its != [] {
      var n := |its| - 1;
      var es := Entries(branch, orderId, its[..n], fault);
      LedgerSplits(branch, orderId, its[..n], fault, v);
      var it := its[n];
      assert Received(its, fault, v) == Received(its[..n], fault, v)
        + (if it.variant == Some(v) && fault(n) == NoFault then it.quantity else 0);
      assert Dropped(its, fault, v) == Dropped(its[..n], fault, v)
        + (if it.variant == Some(v) && fault(n) == StockFails then it.quantity else 0);
      if it.variant.Some? && fault(n) != MovementFails {
        var m := Entry(branch, orderId, it.variant.value, it.quantity);
        assert Entries(branch, orderId, its, fault) == es + [m];
        LedgerQuantityAppend(es, m, StockKey(branch, v));
      } else {
        assert Entries(branch, orderId, its, fault) == es + [];
        assert es + [] == es;
      }
    }
  }

  /** Appending one movement adds its quantity to its own key only. */
  lemma LedgerQuantityAppend(ms: seq<Movement>, m: Movement, k: StockKey)
    ensures LedgerQuantity(ms + [m], k)
      == LedgerQuantity(ms, k) + (if StockKey(m.branch, m.variant) == k then m.quantity else 0)
  {
    assert (ms + [m])[..|ms|] == ms;
  }

  /** Stock and ledger agree except for the dropped quantities: for every
      key of the branch, the on-hand change plus what failed stock steps
      dropped equals what the loop wrote to the ledger. With no failed stock
      step, stock moves exactly with the ledger. */
  lemma StockFollowsLedger(b: Books, branch: Id, orderId: Id, its: seq<Item>, fault: nat -> Fault, v: Id)
    ensures var r := ReceiveAll(b, branch, orderId, its, fault);
      var k := StockKey(branch, v);
      && |b.movements| <= |r.movements|
      && OnHandOf(r.stock, k) + Dropped(its, fault, v)
        == OnHandOf(b.stock, k) + LedgerQuantity(r.movements[|b.movements|..], k)
  {
    ReceiveAllStock(b, branch, orderId, its, fault, v);
    ReceiveAllMovements(b, branch, orderId, its, fault);
    LedgerSplits(branch, orderId, its, fault, v);
    var r := ReceiveAll(b, branch, orderId, its, fault);
    assert r.movements[|b.movements|..] == Entries(branch, orderId, its, fault);
  }

  /** No failed step drops anything. */
  lemma {:induction false} NothingDroppedWithoutStockFaults(its: seq<Item>, fault: nat -> Fault, v: Id)
    requires forall i :: 0 <= i < |its| ==> fault(i) != StockFails
    ensures Dropped(its, fault, v) == 0
    decreases |its|
  {
    if its != [] {
      NothingDroppedWithoutStockFaults(its[..|its| - 1], fault, v);
    }
  }

  /** The sum of the quantities of the items of `variant`. */
  function VariantQuantity(its: seq<Item>, variant: Id): int
    decreases |its|
  {
    if its == [] then 0
    else
      var n := |its| - 1;
      VariantQuantity(its[..n], variant) + (if its[n].variant == Some(variant) then its[n].quantity else 0)
  }

  /** When no item fails, the stock step runs for every item of the
      variant: the on-hand quantity grows by the sum of their quantities. */
  lemma {:induction false} ReceivedWithoutFaults(its: seq<Item>, fault: nat -> Fault, v: Id)
    requires forall i :: 0 <= i < |its| ==> fault(i) == NoFault
    ensures Received(its, fault, v) == VariantQuantity(its, v)
    decreases |its|
  {
    if its != [] {
      ReceivedWithoutFaults(its[..|its| - 1], fault, v);
    }
  }

  /** Receiving the same items twice counts them twice: nothing in the loop
      remembers that an order was received before. */
  lemma ReplayCountsTwice(b: Books, branch: Id, orderId: Id, its: seq<Item>, fault1: nat -> Fault, fault2: nat -> Fault, v: Id)
    ensures var r := ReceiveAll(ReceiveAll(b, branch, orderId, its, fault1), branch, orderId, its, fault2);
      && OnHandOf(r.stock, StockKey(branch, v))
        == OnHandOf(b.stock, StockKey(branch, v)) + Received(its, fault1, v) + Received(its, fault2, v)
      && r.movements == b.movements + Entries(branch, orderId, its, fault1) + Entries(branch, orderId, its, fault2)
  {
    var b1 := ReceiveAll(b, branch, orderId, its, fault1);
    ReceiveAllStock(b, branch, orderId, its, fault1, v);
    ReceiveAllStock(b1, branch, orderId, its, fault2, v);
    ReceiveAllMovements(b, branch, orderId, its, fault1);
    ReceiveAllMovements(b1, branch, orderId, its, fault2);
  }
}
