/** `listWithItemTotals` (src/models/purchaseOrders.js:17-31): purchase
    orders LEFT JOINed with their items, an optional WHERE over the joined
    rows, GROUP BY order with `COALESCE(SUM(quantity * cost_price), 0)` and
    `COUNT(poi.id)`, ORDER BY id DESC, then OFFSET and LIMIT. Costs are in
    cents. */
module OrderTotals {
  import opened Values
  import opened Strings
  import opened Sorting
  import opened Inventory
  import opened Rows
  import Helpers
  import Purchasing

  /** One row of the LEFT JOIN: an order with one of its items, or with
      none when it has no items. */
  datatype Joined = Joined(id: Id, order: Order, item: Option<Item>)

  /** A result row: the order's columns, `items_total` as a number and
      `items_count` as the decimal text in which a COUNT (a bigint) reaches
      JavaScript. */
  datatype TotalsRow = TotalsRow(id: Id, order: Order, itemsTotal: int, itemsCount: string)

  /** The options object; `where` is the SQL text and `matches` its meaning
      on a joined row. A `limit` or `offset` left out is None and takes its
      destructuring default; a `where` left out is '' and a `params` left
      out is []. */
  datatype TotalsOptions = TotalsOptions(limit: Option<nat>, offset: Option<nat>, where: string, params: seq<Value>)

  /** `listWithItemTotals()`: no options object, every default. */
  const NoOptions := TotalsOptions(None, None, "", [])

  const DefaultLimit: nat := 100
  const DefaultOffset: nat := 0

  /** `limit = 100` */
  function LimitOf(opts: TotalsOptions): nat
  {
    if opts.limit.Some? then opts.limit.value else DefaultLimit
  }

  /** `offset = 0` */
  function OffsetOf(opts: TotalsOptions): nat
  {
    if opts.offset.Some? then opts.offset.value else DefaultOffset
  }

  /** `quantity * cost_price`, null when the cost is null. */
  function LineCost(it: Item): Option<int>
  {
    if it.costPrice.Some? then Some(it.quantity * it.costPrice.value) else None
  }

  /** The joined rows of one order, one per item. */
  function JoinItems(id: Id, o: Order, its: seq<Item>): (js: seq<Joined>)
    ensures |js| == |its|
    ensures forall j :: 0 <= j < |js| ==> js[j] == Joined(id, o, Some(its[j]))
  {
    if its == [] then [] else [Joined(id, o, Some(its[0]))] + JoinItems(id, o, its[1..])
  }

  /** The LEFT JOIN for one order: a lone row with no item when it has none. */
  function JoinOrder(id: Id, o: Order, items: seq<Item>): seq<Joined>
  {
    var its := Purchasing.ItemsOf(items, id);
    if its == [] then [Joined(id, o, None)] else JoinItems(id, o, its)
  }

  function Where(js: seq<Joined>, where: string, matches: Joined -> bool): (r: seq<Joined>)
    ensures where == "" ==> r == js
    ensures forall j :: j in r ==> j in js && (where == "" || matches(j))
  {
    if js == [] then []
    else
      var rest := Where(js[1..], where, matches);
      if where == "" || matches(js[0]) then [js[0]] + rest else rest
  }

  /** SUM of the non-null line costs, COALESCEd to 0. */
  function SumCost(js: seq<Joined>): int
  {
    if js == [] then 0
    else
      (if js[0].item.Some? && LineCost(js[0].item.value).Some? then LineCost(js[0].item.value).value else 0)
        + SumCost(js[1..])
  }

  /** COUNT(poi.id): the joined rows that carry an item. */
  function CountItems(js: seq<Joined>): nat
  {
    if js == [] then 0 else (if js[0].item.Some? then 1 else 0) + CountItems(js[1..])
  }

  /** The reference total: quantity times cost over the items with a cost. */
  function ItemsTotal(its: seq<Item>): int
  {
    if its == [] then 0
    else (if LineCost(its[0]).Some? then LineCost(its[0]).value else 0) + ItemsTotal(its[1..])
  }

  /** The group of one order, absent when the WHERE keeps none of its rows. */
  function Group(id: Id, o: Order, items: seq<Item>, where: string, matches: Joined -> bool): (g: Option<TotalsRow>)
    ensures g.Some? ==> g.value.id == id && g.value.order == o
  {
    var js := Where(JoinOrder(id, o, items), where, matches);
    if js == [] then None else Some(TotalsRow(id, o, SumCost(js), NatToString(CountItems(js))))
  }

  /** GROUP BY po.id, in table order. */
  function Groups(orders: seq<(Id, Order)>, items: seq<Item>, where: string, matches: Joined -> bool): (rs: seq<TotalsRow>)
    ensures |rs| <= |orders|
    ensures forall r :: r in rs ==> (r.id, r.order) in orders
  {
    if orders == [] then []
    else
      var g := Group(orders[0].0, orders[0].1, items, where, matches);
      (if g.Some? then [g.value] else []) + Groups(orders[1..], items, where, matches)
  }

  /** `po.id` is the primary key: no two orders share an id. */
  predicate DistinctOrderIds(orders: seq<(Id, Order)>)
  {
    forall i, j :: 0 <= i < j < |orders| ==> orders[i].0 != orders[j].0
  }

  function RowId(r: TotalsRow): string
  {
    r.id
  }

  /** The rows `listWithItemTotals` returns. */
  function ListWithItemTotals(orders: seq<(Id, Order)>, items: seq<Item>, opts: TotalsOptions, matches: Joined -> bool): (rs: seq<TotalsRow>)
    requires DistinctOrderIds(orders)
    ensures |rs| <= LimitOf(opts)
    ensures opts.limit.None? ==> |rs| <= DefaultLimit
    ensures SortedDesc(rs, RowId)
  {
    var sorted := SortDesc(Groups(orders, items, opts.where, matches), RowId);
    SortedPage(sorted, OffsetOf(opts), LimitOf(opts), RowId);
    Take(Drop(sorted, OffsetOf(opts)), LimitOf(opts))
  }

  /** The SELECT and the LEFT JOIN, with the template literal's line breaks. */
  const TotalsSelect := "SELECT po.*, COALESCE(SUM(poi.quantity * poi.cost_price), 0) AS items_total, COUNT(poi.id) AS items_count"
    + "\n    FROM purchase_orders po"
    + "\n    LEFT JOIN purchase_order_items poi ON poi.purchase_order_id = po.id"

  /** The query text: the LEFT JOIN, the optional WHERE right after it,
      then GROUP BY, ORDER BY and the LIMIT and OFFSET placeholders, which
      come after the caller's. The join is followed by the WHERE clause when
      a `where` is given and directly by the GROUP BY otherwise. */
  function TotalsText(opts: TotalsOptions): (text: string)
    ensures StartsWith(text, TotalsSelect)
    ensures EndsWith(text, " LIMIT " + Helpers.Placeholder(|opts.params| + 1) + " OFFSET " + Helpers.Placeholder(|opts.params| + 2))
    ensures opts.where != "" ==> OccursAt(text, " WHERE " + opts.where + " GROUP BY", |TotalsSelect|)
    ensures opts.where == "" ==> OccursAt(text, " GROUP BY", |TotalsSelect|)
  {
    var tail := " LIMIT " + Helpers.Placeholder(|opts.params| + 1) + " OFFSET " + Helpers.Placeholder(|opts.params| + 2);
    var wherePart := if opts.where != "" then " WHERE " + opts.where else "";
    TextPieces(TotalsSelect, wherePart, " GROUP BY", " po.id ORDER BY po.id DESC" + tail);
    TotalsSelect + wherePart + (" GROUP BY" + (" po.id ORDER BY po.id DESC" + tail))
  }

  /** Where the pieces of a concatenation sit. */
  lemma TextPieces(a: string, b: string, c: string, d: string)
    ensures StartsWith(a + b + (c + d), a)
    ensures EndsWith(a + b + (c + d), d)
    ensures OccursAt(a + b + (c + d), b + c, |a|)
  {
    var t := a + b + (c + d);
    assert t[..|a|] == a;
    assert t[|t| - |d|..] == d;
    assert t[|a|..|a| + |b + c|] == b + c;
  }

  /** The query's values: the caller's, then the page size and offset,
      which the LIMIT and OFFSET placeholders name while the caller's
      placeholders still name the caller's values. */
  function TotalsValues(opts: TotalsOptions): (values: seq<Value>)
    ensures |values| == |opts.params| + 2 && values[..|opts.params|] == opts.params
    ensures Helpers.Bind(values, Helpers.Placeholder(|opts.params| + 1)) == Some(Num(LimitOf(opts)))
    ensures Helpers.Bind(values, Helpers.Placeholder(|opts.params| + 2)) == Some(Num(OffsetOf(opts)))
    ensures opts == NoOptions ==> values == [Num(100), Num(0)]
    ensures forall i :: 0 <= i < |opts.params| ==> Helpers.Bind(values, Helpers.Placeholder(i + 1)) == Some(opts.params[i])
  {
    var vs := opts.params + [Num(LimitOf(opts)), Num(OffsetOf(opts))];
    Helpers.TrailingPlaceholdersBind(opts.params, Num(LimitOf(opts)), Num(OffsetOf(opts)));
    assert vs[..|opts.params|] == opts.params;
    vs
  }

  // ---------------------------------------------------------------- lemmas

  lemma {:induction false} JoinedTotals(id: Id, o: Order, its: seq<Item>)
    ensures SumCost(JoinItems(id, o, its)) == ItemsTotal(its)
    ensures CountItems(JoinItems(id, o, its)) == |its|
  {
    if its != [] {
      JoinedTotals(id, o, its[1..]);
      assert JoinItems(id, o, its)[1..] == JoinItems(id, o, its[1..]);
    }
  }

  /** Without a WHERE, every order gets a group: items_total is the sum of
      quantity times cost over its items (0 when it has none) and
      items_count the number of its items (the text "0" when none). The
      order's own columns pass through unchanged. */
  lemma GroupTotals(id: Id, o: Order, items: seq<Item>, matches: Joined -> bool)
    ensures var g := Group(id, o, items, "", matches);
      && g.Some?
      && g.value.order == o
      && g.value.itemsTotal == ItemsTotal(Purchasing.ItemsOf(items, id))
      && g.value.itemsCount == NatToString(|Purchasing.ItemsOf(items, id)|)
      && ParseNat(g.value.itemsCount) == |Purchasing.ItemsOf(items, id)|
  {
    var its := Purchasing.ItemsOf(items, id);
    var js := JoinOrder(id, o, items);
    assert Where(js, "", matches) == js;
    if its != [] {
      JoinedTotals(id, o, its);
    } else {
      assert js == [Joined(id, o, None)] && js[1..] == [];
      assert SumCost(js) == 0 && CountItems(js) == 0;
    }
    ParseNatToString(|its|);
  }

  /** Without a WHERE, there is exactly one group per order, in table
      order, including orders with no items. */
  lemma {:induction false} OneGroupPerOrder(orders: seq<(Id, Order)>, items: seq<Item>, matches: Joined -> bool)
    ensures |Groups(orders, items, "", matches)| == |orders|
    ensures forall i :: 0 <= i < |orders| ==> (Groups(orders, items, "", matches)[i].id == orders[i].0
      && Groups(orders, items, "", matches)[i] == Group(orders[i].0, orders[i].1, items, "", matches).value)
  {
    if orders != [] {
      OneGroupPerOrder(orders[1..], items, matches);
      GroupTotals(orders[0].0, orders[0].1, items, matches);
      var rest := Groups(orders[1..], items, "", matches);
      assert Groups(orders, items, "", matches) == [Group(orders[0].0, orders[0].1, items, "", matches).value] + rest;
    }
  }

  /** Paging: the result is the rows of the sorted groups from position
      `offset` on, at most `limit` of them. */
  lemma Paging(orders: seq<(Id, Order)>, items: seq<Item>, opts: TotalsOptions, matches: Joined -> bool)
    requires DistinctOrderIds(orders)
    ensures var sorted := SortDesc(Groups(orders, items, opts.where, matches), RowId);
      var rs := ListWithItemTotals(orders, items, opts, matches);
      var offset, limit := OffsetOf(opts), LimitOf(opts);
      && |rs| == (if offset >= |sorted| then 0 else if |sorted| - offset < limit then |sorted| - offset else limit)
      && forall i :: 0 <= i < |rs| ==> rs[i] == sorted[offset + i]
  {
  }

  /** With `limit` and `offset` left out, the result is the first 100
      sorted groups, or all of them when there are fewer. */
  lemma DefaultPage(orders: seq<(Id, Order)>, items: seq<Item>, opts: TotalsOptions, matches: Joined -> bool)
    requires DistinctOrderIds(orders)
    requires opts.limit.None? && opts.offset.None?
    ensures var sorted := SortDesc(Groups(orders, items, opts.where, matches), RowId);
      var rs := ListWithItemTotals(orders, items, opts, matches);
      && |rs| == (if |sorted| < 100 then |sorted| else 100)
      && rs == sorted[..|rs|]
  {
    var sorted := SortDesc(Groups(orders, items, opts.where, matches), RowId);
    assert Drop(sorted, 0) == sorted;
  }

  /** `listWithItemTotals()` over distinct orders: one row per order, up to
      100 of them. */
  lemma NoOptionsPage(orders: seq<(Id, Order)>, items: seq<Item>, matches: Joined -> bool)
    requires DistinctOrderIds(orders)
    ensures |ListWithItemTotals(orders, items, NoOptions, matches)| == if |orders| < 100 then |orders| else 100
  {
    OneGroupPerOrder(orders, items, matches);
    DefaultPage(orders, items, NoOptions, matches);
    var gs := Groups(orders, items, "", matches);
    assert |multiset(SortDesc(gs, RowId))| == |multiset(gs)|;
  }

  /** GROUP BY po.id: with the primary key, no two groups share an id. */
  lemma {:induction false} GroupIdsDistinct(orders: seq<(Id, Order)>, items: seq<Item>, where: string, matches: Joined -> bool)
    requires DistinctOrderIds(orders)
    ensures forall i, j :: 0 <= i < j < |Groups(orders, items, where, matches)| ==>
      Groups(orders, items, where, matches)[i].id != Groups(orders, items, where, matches)[j].id
  {
    if orders != [] {
      var rest := Groups(orders[1..], items, where, matches);
      DistinctOrderIdsTail(orders);
      GroupIdsDistinct(orders[1..], items, where, matches);
      var g := Group(orders[0].0, orders[0].1, items, where, matches);
      if g.Some? {
        forall r | r in rest ensures r.id != g.value.id {
          var k :| 0 <= k < |orders[1..]| && orders[1..][k] == (r.id, r.order);
          assert orders[k + 1].0 == r.id;
        }
        RowIdsCons(g.value, rest);
        assert Groups(orders, items, where, matches) == [g.value] + rest;
      } else {
        assert Groups(orders, items, where, matches) == rest;
      }
    }
  }

  /** Dropping the first order keeps the ids distinct. */
  lemma DistinctOrderIdsTail(orders: seq<(Id, Order)>)
    requires orders != [] && DistinctOrderIds(orders)
    ensures DistinctOrderIds(orders[1..])
  {
    forall i, j | 0 <= i < j < |orders[1..]| ensures orders[1..][i].0 != orders[1..][j].0 {
      assert orders[1..][i] == orders[i + 1] && orders[1..][j] == orders[j + 1];
    }
  }

  /** A row whose id no later row shares, put in front of rows with distinct ids, keeps them distinct. */
  lemma RowIdsCons(g: TotalsRow, rest: seq<TotalsRow>)
    requires forall i, j :: 0 <= i < j < |rest| ==> rest[i].id != rest[j].id
    requires forall r :: r in rest ==> r.id != g.id
    ensures forall i, j :: 0 <= i < j < |[g] + rest| ==> ([g] + rest)[i].id != ([g] + rest)[j].id
  {
    var all := [g] + rest;
    forall i, j | 0 <= i < j < |all| ensures all[i].id != all[j].id {
      assert all[j] == rest[j - 1] && all[j] in rest;
      if i > 0 {
        assert all[i] == rest[i - 1];
      }
    }
  }
}
