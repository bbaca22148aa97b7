/**
 * The aggregation of `GET /api/dashboard` over the orders of one merchant:
 * total sales of completed orders, the number of orders per status, and the
 * five products ordered most often.
 */
module Dashboard {
  import opened Store
  import opened Seqs

  /** One entry of `productSales`: orders and units of one item name. */
  datatype ProductSale = ProductSale(item: string, count: nat, totalQuantity: int)

  datatype Summary = Summary(totalSales: int, ordersByStatus: map<string, nat>,
                             topProducts: seq<ProductSale>)

  predicate IsCompleted(o: Order) { o.status == "completed" }

  function OrderTotal(o: Order): int { o.total }

  /** `totalSales`: the totals of completed orders, added left to right. */
  function TotalSales(orders: seq<Order>): int
  {
    Sum(Filter(orders, IsCompleted), OrderTotal)
  }

  /** No orders sell nothing; one more order adds its total exactly when it is completed. */
  lemma TotalSalesStep(init: seq<Order>, last: Order)
    ensures TotalSales([]) == 0
    ensures TotalSales(init + [last]) == TotalSales(init) + (if last.status == "completed" then last.total else 0)
  {
    FilterSnoc(init, last, IsCompleted);
    var done := Filter(init, IsCompleted);
    if IsCompleted(last) {
      assert Filter(init + [last], IsCompleted) == done + [last];
      SumConcat(done, [last], OrderTotal);
      assert Sum([last], OrderTotal) == last.total by { assert [last][..0] == []; }
    } else {
      assert Filter(init + [last], IsCompleted) == done;
    }
  }

  /** The store returns the orders in no promised order; the total does not depend on it. */
  lemma {:induction false} TotalSalesIgnoresOrder(a: seq<Order>, b: seq<Order>)
    requires multiset(a) == multiset(b)
    ensures TotalSales(a) == TotalSales(b)
  {
    var fa, fb := Filter(a, IsCompleted), Filter(b, IsCompleted);
    FilterCounts(a, IsCompleted);
    FilterCounts(b, IsCompleted);
    assert multiset(fa) == multiset(fb) by {
      forall o ensures multiset(fa)[o] == multiset(fb)[o] { }
    }
    SumPermutation(fa, fb, OrderTotal);
  }

  /** Orders that are not completed add nothing, and the sales of two batches add up. */
  lemma {:induction false} TotalSalesAppend(a: seq<Order>, b: seq<Order>)
    ensures TotalSales(a + b) == TotalSales(a) + TotalSales(b)
    decreases |b|
  {
    if b == [] {
      assert a + b == a;
    } else {
      var init, last := b[..|b| - 1], b[|b| - 1];
      assert (a + b)[..|a + b| - 1] == a + init;
      assert b[..|b| - 1] == init;
      TotalSalesAppend(a, init);
      var fi := Filter(a + init, IsCompleted);
      var tail := if IsCompleted(last) then [last] else [];
      assert Filter(a + b, IsCompleted) == fi + tail;
      assert Filter(b, IsCompleted) == Filter(init, IsCompleted) + tail;
      SumConcat(fi, tail, OrderTotal);
      SumConcat(Filter(init, IsCompleted), tail, OrderTotal);
      assert Sum(tail, OrderTotal) == (if IsCompleted(last) then last.total else 0) by {
        if IsCompleted(last) { assert tail[..0] == []; }
      }
    }
  }

  /** How many of `orders` have status `status`. */
  function CountStatus(orders: seq<Order>, status: string): nat
  {
    if orders == [] then 0
    else CountStatus(orders[..|orders| - 1], status) + (if orders[|orders| - 1].status == status then 1 else 0)
  }

  /**
   * `ordersByStatus`: a key for every status that occurs, mapped to the number
   * of orders with that status.
   */
  function OrdersByStatus(orders: seq<Order>): (m: map<string, nat>)
    ensures forall s :: s in m <==> exists o :: o in orders && o.status == s
    ensures forall s :: s in m ==> m[s] == CountStatus(orders, s) && m[s] > 0
  {
    if orders == [] then map[]
    else
      var init, last := orders[..|orders| - 1], orders[|orders| - 1];
      assert orders == init + [last];
      var acc := OrdersByStatus(init);
      var m := acc[last.status := (if last.status in acc then acc[last.status] else 0) + 1];
      StatusStep(init, last, acc, m);
      m
  }

  /** If `acc` tallies `init` exactly, one more increment tallies `init` with `last` appended exactly. */
  lemma StatusStep(init: seq<Order>, last: Order, acc: map<string, nat>, m: map<string, nat>)
    requires forall s :: s in acc <==> exists o :: o in init && o.status == s
    requires forall s :: s in acc ==> acc[s] == CountStatus(init, s) && acc[s] > 0
    requires m == acc[last.status := (if last.status in acc then acc[last.status] else 0) + 1]
    ensures forall s :: s in m <==> exists o :: o in init + [last] && o.status == s
    ensures forall s :: s in m ==> m[s] == CountStatus(init + [last], s) && m[s] > 0
  {
    var orders := init + [last];
    assert orders[..|orders| - 1] == init;
    forall s | s in m ensures m[s] == CountStatus(orders, s) {
      assert CountStatus(orders, s) == CountStatus(init, s) + (if last.status == s then 1 else 0);
      if s == last.status && s !in acc {
        CountStatusAbsent(init, s);
      }
    }
    forall s ensures s in m <==> exists o :: o in orders && o.status == s {
      if s in m && s != last.status {
        var o :| o in init && o.status == s;
        assert o in orders;
      }
      if s == last.status {
        assert last in orders;
      }
    }
  }

  lemma {:induction false} CountStatusAbsent(orders: seq<Order>, status: string)
    requires forall o :: o in orders ==> o.status != status
    ensures CountStatus(orders, status) == 0
  {
    if orders != [] {
      var init := orders[..|orders| - 1];
      assert forall o :: o in init ==> o in orders;
      CountStatusAbsent(init, status);
    }
  }

  /** The sum of the values of a map. */
  ghost function SumValues<K>(m: map<K, nat>): nat
    decreases |m|
  {
    if m == map[] then 0
    else
      var k :| k in m;
      assert |m - {k}| < |m| by { assert (m - {k}).Keys == m.Keys - {k}; }
      m[k] + SumValues(m - {k})
  }

  /** `SumValues` may take the keys in any order. */
  lemma {:induction false} SumValuesRemove<K>(m: map<K, nat>, k: K)
    requires k in m
    ensures SumValues(m) == m[k] + SumValues(m - {k})
    decreases |m|
  {
    var j :| j in m && SumValues(m) == m[j] + SumValues(m - {j});
    if j != k {
      assert (m - {j}).Keys == m.Keys - {j};
      assert (m - {k}).Keys == m.Keys - {k};
      SumValuesRemove(m - {j}, k);
      SumValuesRemove(m - {k}, j);
      assert m - {j} - {k} == m - {k} - {j};
    }
  }

  /** The counts of `ordersByStatus` add up to the number of orders. */
  lemma {:induction false} StatusCountsAddUp(orders: seq<Order>)
    ensures SumValues(OrdersByStatus(orders)) == |orders|
  {
    if orders != [] {
      var init, last := orders[..|orders| - 1], orders[|orders| - 1];
      StatusCountsAddUp(init);
      var acc := OrdersByStatus(init);
      var m := OrdersByStatus(orders);
      assert m == acc[last.status := (if last.status in acc then acc[last.status] else 0) + 1];
      SumValuesRemove(m, last.status);
      if last.status in acc {
        SumValuesRemove(acc, last.status);
        assert m - {last.status} == acc - {last.status};
      } else {
        assert m - {last.status} == acc;
      }
    }
  }

  /** How many orders name `item`, and how many units they order. */
  function CountItem(orders: seq<Order>, item: string): nat
  {
    if orders == [] then 0
    else CountItem(orders[..|orders| - 1], item) + (if orders[|orders| - 1].item == item then 1 else 0)
  }

  function QuantityOf(orders: seq<Order>, item: string): int
  {
    if orders == [] then 0
    else QuantityOf(orders[..|orders| - 1], item)
         + (if orders[|orders| - 1].item == item then orders[|orders| - 1].quantity else 0)
  }

  predicate DistinctItems(sales: seq<ProductSale>)
  {
    forall i, j :: 0 <= i < j < |sales| ==> sales[i].item != sales[j].item
  }

  /** One step of the `productSales` reduce: count `o` under its item name. */
  function AddSale(sales: seq<ProductSale>, o: Order): (r: seq<ProductSale>)
    requires DistinctItems(sales)
    ensures DistinctItems(r)
    ensures |r| == |sales| || |r| == |sales| + 1
    ensures forall i :: 0 <= i < |sales| ==> r[i].item == sales[i].item
    ensures forall i :: 0 <= i < |sales| ==>
      r[i] == if sales[i].item == o.item
              then sales[i].(count := sales[i].count + 1, totalQuantity := sales[i].totalQuantity + o.quantity)
              else sales[i]
    ensures |r| == |sales| + 1 <==> forall i :: 0 <= i < |sales| ==> sales[i].item != o.item
    ensures |r| == |sales| + 1 ==> r[|sales|] == ProductSale(o.item, 1, o.quantity)
  {
    if sales == [] then [ProductSale(o.item, 1, o.quantity)]
    else if sales[0].item == o.item then
      [sales[0].(count := sales[0].count + 1, totalQuantity := sales[0].totalQuantity + o.quantity)] + sales[1..]
    else [sales[0]] + AddSale(sales[1..], o)
  }

  /**
   * `productSales`, in the order its keys were first met: one entry per item
   * name, holding how many orders name it and how many units they order.
   */
  function ProductSales(orders: seq<Order>): (r: seq<ProductSale>)
    ensures DistinctItems(r)
    ensures forall i :: 0 <= i < |r| ==>
      r[i].count == CountItem(orders, r[i].item) && r[i].totalQuantity == QuantityOf(orders, r[i].item)
    ensures forall o :: o in orders ==> exists i :: 0 <= i < |r| && r[i].item == o.item
    ensures forall i :: 0 <= i < |r| ==> r[i].count > 0
  {
    if orders == [] then []
    else
      var init, last := orders[..|orders| - 1], orders[|orders| - 1];
      assert orders == init + [last];
      var acc := ProductSales(init);
      var r := AddSale(acc, last);
      CountedStep(init, last, acc, r);
      CoveredStep(init, last, acc, r);
      r
  }

  /** One more order adds to the count and quantity of its own item name only. */
  lemma CountAppend(init: seq<Order>, last: Order, item: string)
    ensures CountItem(init + [last], item) == CountItem(init, item) + (if last.item == item then 1 else 0)
    ensures QuantityOf(init + [last], item) == QuantityOf(init, item) + (if last.item == item then last.quantity else 0)
  {
    assert (init + [last])[..|init|] == init;
  }

  /**
   * If `acc` counts `init` exactly, `r`, one more `AddSale`, counts `init`
   * with `last` appended exactly.
   */
  lemma {:induction false} CountedStep(init: seq<Order>, last: Order, acc: seq<ProductSale>, r: seq<ProductSale>)
    requires DistinctItems(acc) && r == AddSale(acc, last)
    requires forall i :: 0 <= i < |acc| ==>
      acc[i].count == CountItem(init, acc[i].item) && acc[i].totalQuantity == QuantityOf(init, acc[i].item)
    requires forall o :: o in init ==> exists i :: 0 <= i < |acc| && acc[i].item == o.item
    requires forall i :: 0 <= i < |acc| ==> acc[i].count > 0
    ensures forall i :: 0 <= i < |r| ==>
      r[i].count == CountItem(init + [last], r[i].item) && r[i].totalQuantity == QuantityOf(init + [last], r[i].item)
    ensures forall i :: 0 <= i < |r| ==> r[i].count > 0
  {
    forall i | 0 <= i < |r|
      ensures r[i].count == CountItem(init + [last], r[i].item) && r[i].totalQuantity == QuantityOf(init + [last], r[i].item)
    {
      CountedEntry(init, last, acc, r, i);
    }
  }

  /** Entry `i` of one more `AddSale` counts `init` with `last` appended exactly. */
  lemma {:induction false} CountedEntry(init: seq<Order>, last: Order, acc: seq<ProductSale>, r: seq<ProductSale>, i: nat)
    requires DistinctItems(acc) && r == AddSale(acc, last) && i < |r|
    requires forall i :: 0 <= i < |acc| ==>
      acc[i].count == CountItem(init, acc[i].item) && acc[i].totalQuantity == QuantityOf(init, acc[i].item)
    requires forall o :: o in init ==> exists i :: 0 <= i < |acc| && acc[i].item == o.item
    ensures r[i].count == CountItem(init + [last], r[i].item)
    ensures r[i].totalQuantity == QuantityOf(init + [last], r[i].item)
  {
    CountAppend(init, last, r[i].item);
    if i == |acc| {
      CountAbsent(init, last.item);
    }
  }

  /** If `acc` lists every item of `init`, so does `r`, one more `AddSale`, and `r` lists the added order's item too. */
  lemma CoveredStep(init: seq<Order>, last: Order, acc: seq<ProductSale>, r: seq<ProductSale>)
    requires DistinctItems(acc) && r == AddSale(acc, last)
    requires forall o :: o in init ==> exists i :: 0 <= i < |acc| && acc[i].item == o.item
    ensures forall o :: o in init ==> exists i :: 0 <= i < |r| && r[i].item == o.item
    ensures exists i :: 0 <= i < |r| && r[i].item == last.item
  {
    forall o | o in init ensures exists i :: 0 <= i < |r| && r[i].item == o.item {
      var j :| 0 <= j < |acc| && acc[j].item == o.item;
      assert r[j].item == o.item;
    }
    if |r| == |acc| + 1 {
      assert r[|acc|].item == last.item;
    } else {
      var j :| 0 <= j < |acc| && acc[j].item == last.item;
      assert r[j].item == last.item;
    }
  }

  /** An item name no order names has count and quantity zero. */
  lemma {:induction false} CountAbsent(orders: seq<Order>, item: string)
    requires forall o :: o in orders ==> o.item != item
    ensures CountItem(orders, item) == 0 && QuantityOf(orders, item) == 0
  {
    if orders != [] {
      var init := orders[..|orders| - 1];
      assert forall o :: o in init ==> o in orders;
      CountAbsent(init, item);
    }
  }

  function ByCountDescending(p: ProductSale): int { 0 - p.count as int }

  /**
   * `topProducts`: the sales sorted by count, most first, cut to five.  No
   * entry left out has a higher count than one kept.
   */
  function TopProducts(sales: seq<ProductSale>): (r: seq<ProductSale>)
    ensures |r| == if |sales| < 5 then |sales| else 5
    ensures forall i, j :: 0 <= i < j < |r| ==> r[i].count >= r[j].count
    ensures multiset(r) <= multiset(sales)
    ensures forall i, p :: 0 <= i < |r| && p in multiset(sales) - multiset(r) ==> p.count <= r[i].count
  {
    var sorted := SortBy(sales, ByCountDescending);
    var n := if |sorted| < 5 then |sorted| else 5;
    SortedPrefixIsTop(sales, sorted, n, sorted[..n]);
    sorted[..n]
  }

  /** A prefix of the sales sorted by count, most first, holds the largest counts. */
  lemma SortedPrefixIsTop(sales: seq<ProductSale>, sorted: seq<ProductSale>, n: nat, top: seq<ProductSale>)
    requires n <= |sorted| && top == sorted[..n]
    requires SortedBy(sorted, ByCountDescending) && multiset(sorted) == multiset(sales)
    ensures forall i, j :: 0 <= i < j < |top| ==> top[i].count >= top[j].count
    ensures multiset(top) <= multiset(sales)
    ensures forall i, p :: 0 <= i < |top| && p in multiset(sales) - multiset(top) ==> p.count <= top[i].count
  {
    var rest := sorted[n..];
    assert sorted == top + rest;
    assert multiset(sales) - multiset(top) == multiset(rest);
    DescendingCounts(sorted);
    LaterCountsNoGreater(sorted, n, rest);
  }

  lemma DescendingCounts(sorted: seq<ProductSale>)
    requires SortedBy(sorted, ByCountDescending)
    ensures forall i, j :: 0 <= i < j < |sorted| ==> sorted[i].count >= sorted[j].count
  {
    forall i, j | 0 <= i < j < |sorted| ensures sorted[i].count >= sorted[j].count {
      assert ByCountDescending(sorted[i]) <= ByCountDescending(sorted[j]);
    }
  }

  lemma LaterCountsNoGreater(sorted: seq<ProductSale>, n: nat, rest: seq<ProductSale>)
    requires n <= |sorted| && rest == sorted[n..]
    requires forall i, j :: 0 <= i < j < |sorted| ==> sorted[i].count >= sorted[j].count
    ensures forall i, p :: 0 <= i < n && p in multiset(rest) ==> p.count <= sorted[i].count
  {
    forall i, p: ProductSale | 0 <= i < n && p in multiset(rest) ensures p.count <= sorted[i].count {
      assert p in rest;
      var k :| 0 <= k < |rest| && rest[k] == p;
      assert sorted[n + k] == p;
    }
  }

  /**
   * The whole dashboard for the orders of one merchant, with every item name
   * counted (the corrected `productSales`, see `InheritedItemNameIsDropped`).
   */
  function Summarize(orders: seq<Order>): (s: Summary)
    ensures s.totalSales == TotalSales(orders)
    ensures s.ordersByStatus == OrdersByStatus(orders)
    ensures s.topProducts == TopProducts(ProductSales(orders))
    ensures SumValues(s.ordersByStatus) == |orders|
    ensures |s.topProducts| <= 5
    ensures forall i :: 0 <= i < |s.topProducts| ==>
      && s.topProducts[i].count == CountItem(orders, s.topProducts[i].item) > 0
      && s.topProducts[i].totalQuantity == QuantityOf(orders, s.topProducts[i].item)
  {
    var sales := ProductSales(orders);
    var top := TopProducts(sales);
    StatusCountsAddUp(orders);
    KeptEntriesCounted(orders, sales, top);
    Summary(TotalSales(orders), OrdersByStatus(orders), top)
  }

  /** Entries taken from exact counts of `orders` are exact counts themselves. */
  lemma {:induction false} KeptEntriesCounted(orders: seq<Order>, sales: seq<ProductSale>, top: seq<ProductSale>)
    requires forall i :: 0 <= i < |sales| ==>
      sales[i].count == CountItem(orders, sales[i].item) && sales[i].totalQuantity == QuantityOf(orders, sales[i].item)
    requires forall i :: 0 <= i < |sales| ==> sales[i].count > 0
    requires multiset(top) <= multiset(sales)
    ensures forall i :: 0 <= i < |top| ==>
      && top[i].count == CountItem(orders, top[i].item) > 0
      && top[i].totalQuantity == QuantityOf(orders, top[i].item)
  {
    forall i | 0 <= i < |top|
      ensures top[i].count == CountItem(orders, top[i].item) > 0
      ensures top[i].totalQuantity == QuantityOf(orders, top[i].item)
    {
      assert top[i] in multiset(sales);
      var k :| 0 <= k < |sales| && sales[k] == top[i];
    }
  }

  /** The property names every plain JavaScript object inherits from `Object.prototype`. */
  const InheritedKeys: set<string> := {
    "constructor", "hasOwnProperty", "isPrototypeOf", "propertyIsEnumerable", "toString",
    "toLocaleString", "valueOf", "__proto__", "__defineGetter__", "__defineSetter__",
    "__lookupGetter__", "__lookupSetter__"}

  /**
   * The `productSales` step as the route writes it, on a plain object: for an
   * inherited name `!acc[key]` is false, so no own entry is created and the
   * order never reaches `Object.values`.
   */
  function AddSaleAsWritten(sales: seq<ProductSale>, o: Order): (r: seq<ProductSale>)
    requires DistinctItems(sales)
    ensures DistinctItems(r)
    ensures |r| == |sales| || |r| == |sales| + 1
    ensures forall i :: 0 <= i < |sales| ==>
      r[i] == if sales[i].item == o.item && o.item !in InheritedKeys
              then sales[i].(count := sales[i].count + 1, totalQuantity := sales[i].totalQuantity + o.quantity)
              else sales[i]
    ensures |r| == |sales| + 1 <==> o.item !in InheritedKeys && forall i :: 0 <= i < |sales| ==> sales[i].item != o.item
    ensures |r| == |sales| || r == sales + [ProductSale(o.item, 1, o.quantity)]
  {
    if o.item in InheritedKeys then sales else AddSale(sales, o)
  }

  function ProductSalesAsWritten(orders: seq<Order>): (r: seq<ProductSale>)
    ensures DistinctItems(r)
  {
    if orders == [] then []
    else AddSaleAsWritten(ProductSalesAsWritten(orders[..|orders| - 1]), orders[|orders| - 1])
  }

  /**
   * A completed order for an item named `toString`: the route as written
   * reports no top product at all, while `ProductSales` counts it.
   */
  lemma InheritedItemNameIsDropped()
    ensures var o := Order("buyer", "shop", "item", "toString", 2, 1000, 2000, "pickup", "cod",
                           false, "completed", None);
      && ProductSalesAsWritten([o]) == []
      && TopProducts(ProductSalesAsWritten([o])) == []
      && ProductSales([o]) == [ProductSale("toString", 1, 2)]
      && Summarize([o]).topProducts == [ProductSale("toString", 1, 2)]
  {
    var o := Order("buyer", "shop", "item", "toString", 2, 1000, 2000, "pickup", "cod",
                   false, "completed", None);
    assert [o][..0] == [];
    assert "toString" in InheritedKeys;
  }

  /** An order whose item name is not inherited by every plain object. */
  predicate OwnKey(o: Order) { o.item !in InheritedKeys }

  /**
   * As written, the dashboard counts exactly the orders whose item name is
   * not an inherited property: it is the corrected count over those orders.
   */
  lemma {:induction false} AsWrittenIsFiltered(orders: seq<Order>)
    ensures ProductSalesAsWritten(orders) == ProductSales(Filter(orders, OwnKey))
    decreases |orders|
  {
    if orders != [] {
      var init, last := orders[..|orders| - 1], orders[|orders| - 1];
      assert orders == init + [last];
      FilterSnoc(init, last, OwnKey);
      AsWrittenIsFiltered(init);
      var kept := Filter(init, OwnKey);
      assert ProductSalesAsWritten(orders) == AddSaleAsWritten(ProductSalesAsWritten(init), last);
      if OwnKey(last) {
        assert Filter(orders, OwnKey) == kept + [last];
        assert (kept + [last])[..|kept|] == kept;
      } else {
        assert Filter(orders, OwnKey) == kept;
      }
    }
  }

  /** Filtering out inherited names leaves the counts of every other name alone. */
  lemma {:induction false} CountOwnKeys(orders: seq<Order>, item: string)
    requires item !in InheritedKeys
    ensures CountItem(Filter(orders, OwnKey), item) == CountItem(orders, item)
    ensures QuantityOf(Filter(orders, OwnKey), item) == QuantityOf(orders, item)
    decreases |orders|
  {
    if orders != [] {
      var init, last := orders[..|orders| - 1], orders[|orders| - 1];
      assert orders == init + [last];
      FilterSnoc(init, last, OwnKey);
      CountOwnKeys(init, item);
      CountAppend(init, last, item);
      var kept := Filter(init, OwnKey);
      if OwnKey(last) {
        assert Filter(orders, OwnKey) == kept + [last];
        CountAppend(kept, last, item);
      } else {
        assert Filter(orders, OwnKey) == kept;
      }
    }
  }

  /**
   * The route as written lists no inherited name at all, and lists every
   * other ordered name with its exact order count and quantity.
   */
  lemma {:induction false} AsWrittenDropsInherited(orders: seq<Order>)
    ensures var r := ProductSalesAsWritten(orders);
      && (forall i :: 0 <= i < |r| ==>
            && r[i].item !in InheritedKeys
            && r[i].count == CountItem(orders, r[i].item)
            && r[i].totalQuantity == QuantityOf(orders, r[i].item))
      && (forall o :: o in orders && o.item !in InheritedKeys ==> exists i :: 0 <= i < |r| && r[i].item == o.item)
  {
    var r := ProductSalesAsWritten(orders);
    AsWrittenIsFiltered(orders);
    forall i | 0 <= i < |r|
      ensures r[i].item !in InheritedKeys
      ensures r[i].count == CountItem(orders, r[i].item) && r[i].totalQuantity == QuantityOf(orders, r[i].item)
    {
      var item := r[i].item;
      if item in InheritedKeys {
        InheritedNotCounted(orders, item);
        assert false;
      }
      CountOwnKeys(orders, item);
    }
    forall o | o in orders && o.item !in InheritedKeys ensures exists i :: 0 <= i < |r| && r[i].item == o.item {
      OwnKeyKept(orders, o);
    }
  }

  /** No order with an inherited item name survives the filter. */
  lemma {:induction false} InheritedNotCounted(orders: seq<Order>, item: string)
    requires item in InheritedKeys
    ensures CountItem(Filter(orders, OwnKey), item) == 0
    decreases |orders|
  {
    if orders != [] {
      var init, last := orders[..|orders| - 1], orders[|orders| - 1];
      assert orders == init + [last];
      FilterSnoc(init, last, OwnKey);
      InheritedNotCounted(init, item);
      var kept := Filter(init, OwnKey);
      if OwnKey(last) {
        assert Filter(orders, OwnKey) == kept + [last];
        CountAppend(kept, last, item);
      } else {
        assert Filter(orders, OwnKey) == kept;
      }
    }
  }

  lemma OwnKeyKept(orders: seq<Order>, o: Order)
    requires o in orders && OwnKey(o)
    ensures o in Filter(orders, OwnKey)
  {
    FilterCounts(orders, OwnKey);
    assert multiset(Filter(orders, OwnKey))[o] == multiset(orders)[o];
  }
}
