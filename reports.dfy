/** The figures of src/components/ReportsAnalysis.tsx: the inventory value and
    the low-stock split of `calculateStats`, and the two rankings
    `getTopSellingProducts` and `getTopCustomers`, which total the sale orders
    into a dictionary keyed by product or customer and show its five largest
    entries by amount. The dictionary is a sequence of entries in insertion
    order, which is the order `Object.values` returns for keys that are not
    array indices. */
module Reports {
  import opened Seqs
  import opened Types
  import opened Catalog

  // ------------------------------------------------------------ stock figures

  /** `products.reduce((sum, p) => sum + p.stock * p.purchasePrice, 0)`. */
  function InventoryValue(products: seq<Product>): int
  {
    if |products| == 0 then 0 else products[0].stock * products[0].purchasePrice + InventoryValue(products[1..])
  }

  /** The value of two lists together is the sum of their values. */
  lemma {:induction false} InventoryValueAppend(a: seq<Product>, b: seq<Product>)
    ensures InventoryValue(a + b) == InventoryValue(a) + InventoryValue(b)
  {
    if |a| > 0 {
      assert (a + b)[1..] == a[1..] + b;
      InventoryValueAppend(a[1..], b);
    } else {
      assert a + b == b;
    }
  }

  /** Changing one product's stock moves the value by the change times that
      product's purchase price. */
  lemma {:induction false} InventoryValueRestock(products: seq<Product>, k: nat, stock: int)
    requires k < |products|
    ensures InventoryValue(products[k := products[k].(stock := stock)])
         == InventoryValue(products) + (stock - products[k].stock) * products[k].purchasePrice
  {
    var changed := products[k := products[k].(stock := stock)];
    if k == 0 {
      assert changed[1..] == products[1..];
    } else {
      assert changed[1..] == products[1..][k - 1 := products[k].(stock := stock)];
      InventoryValueRestock(products[1..], k - 1, stock);
    }
  }

  predicate IsNormalStock(p: Product)
  {
    !IsLowStock(p)
  }

  /** The "normal stock" figure, total less low: the products that are not low
      on stock. */
  function NormalStockCount(products: seq<Product>): (n: int)
    ensures n >= 0
    ensures n == |Filter(products, IsNormalStock)|
  {
    FilterComplement(products, IsLowStock, IsNormalStock);
    |products| - |LowStockProducts(products)|
  }

  // ---------------------------------------------------------------- ranking

  /** `.sort((a, b) => amount(b) - amount(a)).slice(0, 5)`: the five entries
      with the largest amounts, largest first. */
  function Top<T>(entries: seq<T>, amount: T -> int): (r: seq<T>)
    ensures |r| == if |entries| < 5 then |entries| else 5
    ensures forall i, j :: 0 <= i < j < |r| ==> amount(r[i]) >= amount(r[j])
    ensures forall i :: 0 <= i < |r| ==> r[i] in entries
    ensures multiset(r) <= multiset(entries)
    ensures |entries| <= 5 ==> multiset(r) == multiset(entries)
    ensures forall k :: 0 <= k < |entries| && entries[k] !in r ==>
      forall i :: 0 <= i < |r| ==> amount(entries[k]) <= amount(r[i])
  {
    var sorted := SortBy(entries, x => -amount(x));
    TopOfSorted(entries, sorted, amount);
    Take(sorted, 5)
  }

  lemma TopOfSorted<T>(entries: seq<T>, sorted: seq<T>, amount: T -> int)
    requires multiset(sorted) == multiset(entries) && Ascending(sorted, x => -amount(x))
    ensures var r := Take(sorted, 5);
      (forall i, j :: 0 <= i < j < |r| ==> amount(r[i]) >= amount(r[j])) &&
      (forall i :: 0 <= i < |r| ==> r[i] in entries) && multiset(r) <= multiset(entries) &&
      (|entries| <= 5 ==> multiset(r) == multiset(entries)) &&
      forall k :: 0 <= k < |entries| && entries[k] !in r ==>
        forall i :: 0 <= i < |r| ==> amount(entries[k]) <= amount(r[i])
  {
    var r := Take(sorted, 5);
    SameMembers(sorted, entries);
    if |sorted| >= 5 {
      assert sorted == r + sorted[5..];
    }
    if |sorted| <= 5 {
      assert r == sorted;
    }
    TopOfSortedRest(entries, sorted, amount);
  }

  /** What the slice leaves out is no larger than anything it keeps. */
  lemma TopOfSortedRest<T>(entries: seq<T>, sorted: seq<T>, amount: T -> int)
    requires multiset(sorted) == multiset(entries) && Ascending(sorted, x => -amount(x))
    ensures var r := Take(sorted, 5);
      forall k :: 0 <= k < |entries| && entries[k] !in r ==>
        forall i :: 0 <= i < |r| ==> amount(entries[k]) <= amount(r[i])
  {
    var r := Take(sorted, 5);
    forall k | 0 <= k < |entries| && entries[k] !in r
      ensures forall i :: 0 <= i < |r| ==> amount(entries[k]) <= amount(r[i])
    {
      assert entries[k] in multiset(sorted);
      var t :| 0 <= t < |sorted| && sorted[t] == entries[k];
      assert t >= |r|;
    }
  }

  // ------------------------------------------------------- product ranking

  /** One value of `productSales`. */
  datatype ProductSales = ProductSales(productId: string, name: string, quantity: int, amount: int)

  function ProductKey(id: string): ProductSales -> bool
  {
    (e: ProductSales) => e.productId == id
  }

  /** `productSales[id]`: the position of the product's entry. */
  function ProductEntry(entries: seq<ProductSales>, id: string): Option<nat>
  {
    Find(entries, ProductKey(id))
  }

  /** The entry of an item's product, created from the item when missing, with
      the item's shipped quantity and value added to it. */
  function TallyItem(entries: seq<ProductSales>, item: SaleItem): seq<ProductSales>
  {
    match ProductEntry(entries, item.productId)
    case None =>
      entries + [ProductSales(item.productId, item.productName, item.shippedQuantity, item.shippedQuantity * item.price)]
    case Some(k) =>
      entries[k := entries[k].(quantity := entries[k].quantity + item.shippedQuantity,
                               amount := entries[k].amount + item.shippedQuantity * item.price)]
  }

  /** The inner `order.items.forEach`. */
  function TallyItems(entries: seq<ProductSales>, items: seq<SaleItem>): seq<ProductSales>
    decreases |items|
  {
    if |items| == 0 then entries
    else TallyItem(TallyItems(entries, items[..|items| - 1]), items[|items| - 1])
  }

  /** The `productSales` dictionary after the outer `saleOrders.forEach`. */
  function ProductTally(orders: seq<SaleOrder>): seq<ProductSales>
    decreases |orders|
  {
    if |orders| == 0 then []
    else TallyItems(ProductTally(orders[..|orders| - 1]), orders[|orders| - 1].items)
  }

  /** Both loops of getTopSellingProducts, on the dictionary: an entry is
      created with zero totals the first time a product is seen, then the
      item's shipped quantity and value are added to it. */
  method TallyProducts(orders: seq<SaleOrder>) returns (entries: seq<ProductSales>)
    ensures entries == ProductTally(orders)
  {
    entries := [];
    var i := 0;
    while i < |orders|
      invariant 0 <= i <= |orders|
      invariant entries == ProductTally(orders[..i])
    {
      entries := TallyOrderItems(entries, orders[i].items);
      assert orders[..i + 1][..i] == orders[..i];
      i := i + 1;
    }
    assert orders[..|orders|] == orders;
  }

  /** The inner loop: one order's items, one by one. */
  method TallyOrderItems(start: seq<ProductSales>, items: seq<SaleItem>) returns (entries: seq<ProductSales>)
    ensures entries == TallyItems(start, items)
  {
    entries := start;
    var j := 0;
    while j < |items|
      invariant 0 <= j <= |items|
      invariant entries == TallyItems(start, items[..j])
    {
      var item := items[j];
      ghost var before := entries;
      var k := ProductEntry(entries, item.productId);
      if k.None? {
        entries := entries + [ProductSales(item.productId, item.productName, 0, 0)];
        k := Some(|entries| - 1);
      }
      entries := entries[k.value := entries[k.value].(quantity := entries[k.value].quantity + item.shippedQuantity,
                                                      amount := entries[k.value].amount + item.shippedQuantity * item.price)];
      assert entries == TallyItem(before, item);
      assert items[..j + 1][..j] == items[..j];
      j := j + 1;
    }
    assert items[..|items|] == items;
  }

  /** The quantity and amount the dictionary holds for a product, 0 without
      an entry. */
  function QuantityIn(entries: seq<ProductSales>, id: string): int
  {
    match ProductEntry(entries, id)
    case Some(k) => entries[k].quantity
    case None => 0
  }

  function AmountIn(entries: seq<ProductSales>, id: string): int
  {
    match ProductEntry(entries, id)
    case Some(k) => entries[k].amount
    case None => 0
  }

  /** Reference totals: over items and over all orders' items, the shipped
      quantity and the shipped value `shippedQuantity × price` of one product. */
  function ItemsShipped(items: seq<SaleItem>, id: string): int
    decreases |items|
  {
    if |items| == 0 then 0
    else
      var last := items[|items| - 1];
      ItemsShipped(items[..|items| - 1], id) + (if last.productId == id then last.shippedQuantity else 0)
  }

  function ItemsShippedValue(items: seq<SaleItem>, id: string): int
    decreases |items|
  {
    if |items| == 0 then 0
    else
      var last := items[|items| - 1];
      ItemsShippedValue(items[..|items| - 1], id) + (if last.productId == id then last.shippedQuantity * last.price else 0)
  }

  function OrdersShipped(orders: seq<SaleOrder>, id: string): int
    decreases |orders|
  {
    if |orders| == 0 then 0
    else OrdersShipped(orders[..|orders| - 1], id) + ItemsShipped(orders[|orders| - 1].items, id)
  }

  function OrdersShippedValue(orders: seq<SaleOrder>, id: string): int
    decreases |orders|
  {
    if |orders| == 0 then 0
    else OrdersShippedValue(orders[..|orders| - 1], id) + ItemsShippedValue(orders[|orders| - 1].items, id)
  }

  /** Some item names the product. */
  predicate Mentions(items: seq<SaleItem>, id: string)
  {
    exists j :: 0 <= j < |items| && items[j].productId == id
  }

  /** Some order has an item of the product. */
  predicate Sold(orders: seq<SaleOrder>, id: string)
  {
    exists i :: 0 <= i < |orders| && Mentions(orders[i].items, id)
  }

  /** One item adds its shipped quantity and value to its own product's entry
      and to no other, creating the entry when missing. */
  lemma TallyItemEffect(entries: seq<ProductSales>, item: SaleItem, id: string)
    ensures QuantityIn(TallyItem(entries, item), id)
         == QuantityIn(entries, id) + (if item.productId == id then item.shippedQuantity else 0)
    ensures AmountIn(TallyItem(entries, item), id)
         == AmountIn(entries, id) + (if item.productId == id then item.shippedQuantity * item.price else 0)
    ensures ProductEntry(TallyItem(entries, item), id).Some?
        <==> ProductEntry(entries, id).Some? || item.productId == id
  {
    var r := TallyItem(entries, item);
    var f := ProductEntry(entries, id);
    match ProductEntry(entries, item.productId)
    case None =>
      var e := ProductSales(item.productId, item.productName, item.shippedQuantity, item.shippedQuantity * item.price);
      assert r == entries + [e];
      FindAppend(entries, e, ProductKey(id));
      if item.productId == id {
        assert ProductEntry(r, id) == Some(|entries|) && r[|entries|] == e;
      } else {
        assert ProductEntry(r, id) == f;
        assert f.Some? ==> r[f.value] == entries[f.value];
      }
    case Some(k) =>
      var e := entries[k].(quantity := entries[k].quantity + item.shippedQuantity,
                           amount := entries[k].amount + item.shippedQuantity * item.price);
      assert r == entries[k := e];
      FindUpdate(entries, k, e, ProductKey(id));
      assert ProductEntry(r, id) == f;
      if item.productId == id {
        assert f == Some(k) && r[k] == e;
      } else {
        assert f.Some? ==> f.value != k && r[f.value] == entries[f.value];
      }
  }

  lemma {:induction false} TallyItemsEffect(entries: seq<ProductSales>, items: seq<SaleItem>, id: string)
    ensures QuantityIn(TallyItems(entries, items), id) == QuantityIn(entries, id) + ItemsShipped(items, id)
    ensures AmountIn(TallyItems(entries, items), id) == AmountIn(entries, id) + ItemsShippedValue(items, id)
    ensures ProductEntry(TallyItems(entries, items), id).Some?
        <==> ProductEntry(entries, id).Some? || Mentions(items, id)
    decreases |items|
  {
    if |items| > 0 {
      var init := items[..|items| - 1];
      TallyItemsEffect(entries, init, id);
      TallyItemEffect(TallyItems(entries, init), items[|items| - 1], id);
      MentionsLast(items, id);
    }
  }

  lemma MentionsLast(items: seq<SaleItem>, id: string)
    requires |items| > 0
    ensures Mentions(items, id) <==> Mentions(items[..|items| - 1], id) || items[|items| - 1].productId == id
  {
    var init := items[..|items| - 1];
    if Mentions(items, id) && items[|items| - 1].productId != id {
      var j :| 0 <= j < |items| && items[j].productId == id;
      assert init[j].productId == id;
    }
    if Mentions(init, id) {
      var j :| 0 <= j < |init| && init[j].productId == id;
      assert items[j].productId == id;
    }
  }

  /** getTopSellingProducts' totals: the dictionary's entry for a product holds
      the product's shipped quantity and shipped value over every item of every
      sale order, and there is an entry exactly for the products some order
      has an item of. */
  lemma {:induction false} ProductTallyTotals(orders: seq<SaleOrder>, id: string)
    ensures QuantityIn(ProductTally(orders), id) == OrdersShipped(orders, id)
    ensures AmountIn(ProductTally(orders), id) == OrdersShippedValue(orders, id)
    ensures ProductEntry(ProductTally(orders), id).Some? <==> Sold(orders, id)
    decreases |orders|
  {
    if |orders| > 0 {
      var init := orders[..|orders| - 1];
      ProductTallyTotals(init, id);
      TallyItemsEffect(ProductTally(init), orders[|orders| - 1].items, id);
      SoldLast(orders, id);
    }
  }

  lemma SoldLast(orders: seq<SaleOrder>, id: string)
    requires |orders| > 0
    ensures Sold(orders, id) <==> Sold(orders[..|orders| - 1], id) || Mentions(orders[|orders| - 1].items, id)
  {
    var init := orders[..|orders| - 1];
    if Sold(orders, id) && !Mentions(orders[|orders| - 1].items, id) {
      var i :| 0 <= i < |orders| && Mentions(orders[i].items, id);
      assert init[i] == orders[i];
    }
    if Sold(init, id) {
      var i :| 0 <= i < |init| && Mentions(init[i].items, id);
      assert orders[i] == init[i];
    }
  }

  /** No product has two entries. */
  predicate UniqueProducts(entries: seq<ProductSales>)
  {
    forall i, j :: 0 <= i < j < |entries| ==> entries[i].productId != entries[j].productId
  }

  lemma {:induction false} TallyItemsUnique(entries: seq<ProductSales>, items: seq<SaleItem>)
    requires UniqueProducts(entries)
    ensures UniqueProducts(TallyItems(entries, items))
    decreases |items|
  {
    if |items| > 0 {
      TallyItemsUnique(entries, items[..|items| - 1]);
    }
  }

  lemma {:induction false} ProductTallyUnique(orders: seq<SaleOrder>)
    ensures UniqueProducts(ProductTally(orders))
    decreases |orders|
  {
    if |orders| > 0 {
      ProductTallyUnique(orders[..|orders| - 1]);
      TallyItemsUnique(ProductTally(orders[..|orders| - 1]), orders[|orders| - 1].items);
    }
  }

  /** In a dictionary without repeated products, an entry is the one its
      product finds. */
  lemma UniqueProductEntry(entries: seq<ProductSales>, k: nat)
    requires UniqueProducts(entries) && k < |entries|
    ensures ProductEntry(entries, entries[k].productId) == Some(k)
  {
  }

  /** getTopSellingProducts: at most five products, each once, largest shipped
      value first, each with its total shipped quantity and value over all sale
      orders; a sold product that is not shown sold no more than any product
      shown. */
  method GetTopSellingProducts(orders: seq<SaleOrder>) returns (top: seq<ProductSales>)
    ensures |top| == if |ProductTally(orders)| < 5 then |ProductTally(orders)| else 5
    ensures |top| < 5 ==> forall id :: Sold(orders, id) ==> exists i :: 0 <= i < |top| && top[i].productId == id
    ensures forall i, j :: 0 <= i < j < |top| ==> top[i].amount >= top[j].amount && top[i].productId != top[j].productId
    ensures forall i :: 0 <= i < |top| ==>
      Sold(orders, top[i].productId) &&
      top[i].quantity == OrdersShipped(orders, top[i].productId) &&
      top[i].amount == OrdersShippedValue(orders, top[i].productId)
    ensures forall id :: Sold(orders, id) && (forall i :: 0 <= i < |top| ==> top[i].productId != id) ==>
      forall i :: 0 <= i < |top| ==> OrdersShippedValue(orders, id) <= top[i].amount
  {
    var entries := TallyProducts(orders);
    ProductTallyUnique(orders);
    top := Top(entries, (e: ProductSales) => e.amount);
    TopProductsUnique(entries, top);
    TopProductsTotals(orders, entries, top);
    TopProductsRest(orders, entries, top);
    if |top| < 5 {
      TopProductsAll(orders, entries, top);
    }
  }

  lemma TopProductsUnique(entries: seq<ProductSales>, top: seq<ProductSales>)
    requires UniqueProducts(entries) && multiset(top) <= multiset(entries)
    ensures UniqueProducts(top)
  {
    assert Distinct(entries);
    DistinctSubMultiset(entries, top);
    forall i, j | 0 <= i < j < |top| ensures top[i].productId != top[j].productId {
      assert top[i] in multiset(entries) && top[j] in multiset(entries);
      var k1 :| 0 <= k1 < |entries| && entries[k1] == top[i];
      var k2 :| 0 <= k2 < |entries| && entries[k2] == top[j];
    }
  }

  lemma TopProductsTotals(orders: seq<SaleOrder>, entries: seq<ProductSales>, top: seq<ProductSales>)
    requires entries == ProductTally(orders) && UniqueProducts(entries)
    requires forall i :: 0 <= i < |top| ==> top[i] in entries
    ensures forall i :: 0 <= i < |top| ==>
      Sold(orders, top[i].productId) &&
      top[i].quantity == OrdersShipped(orders, top[i].productId) &&
      top[i].amount == OrdersShippedValue(orders, top[i].productId)
  {
    forall i | 0 <= i < |top|
      ensures Sold(orders, top[i].productId)
      ensures top[i].quantity == OrdersShipped(orders, top[i].productId)
      ensures top[i].amount == OrdersShippedValue(orders, top[i].productId)
    {
      var k :| 0 <= k < |entries| && entries[k] == top[i];
      UniqueProductEntry(entries, k);
      ProductTallyTotals(orders, top[i].productId);
    }
  }

  /** When fewer than five products sold, the top list holds every one. */
  lemma TopProductsAll(orders: seq<SaleOrder>, entries: seq<ProductSales>, top: seq<ProductSales>)
    requires entries == ProductTally(orders) && multiset(top) == multiset(entries)
    ensures forall id :: Sold(orders, id) ==> exists i :: 0 <= i < |top| && top[i].productId == id
  {
    forall id | Sold(orders, id)
      ensures exists i :: 0 <= i < |top| && top[i].productId == id
    {
      ProductTallyTotals(orders, id);
      var k := ProductEntry(entries, id).value;
      assert entries[k] in multiset(top);
      var i :| 0 <= i < |top| && top[i] == entries[k];
    }
  }

  lemma TopProductsRest(orders: seq<SaleOrder>, entries: seq<ProductSales>, top: seq<ProductSales>)
    requires entries == ProductTally(orders)
    requires forall k :: 0 <= k < |entries| && entries[k] !in top ==>
      forall i :: 0 <= i < |top| ==> entries[k].amount <= top[i].amount
    ensures forall id :: Sold(orders, id) && (forall i :: 0 <= i < |top| ==> top[i].productId != id) ==>
      forall i :: 0 <= i < |top| ==> OrdersShippedValue(orders, id) <= top[i].amount
  {
    forall id | Sold(orders, id) && (forall i :: 0 <= i < |top| ==> top[i].productId != id)
      ensures forall i :: 0 <= i < |top| ==> OrdersShippedValue(orders, id) <= top[i].amount
    {
      ProductTallyTotals(orders, id);
      var k := ProductEntry(entries, id).value;
      assert entries[k] !in top;
    }
  }

  // ------------------------------------------------------ customer ranking

  /** One value of `customerSales`. */
  datatype CustomerSales = CustomerSales(customerId: string, name: string, amount: int, orders: int)

  function CustomerKey(id: string): CustomerSales -> bool
  {
    (e: CustomerSales) => e.customerId == id
  }

  /** `customerSales[id]`: the position of the customer's entry. */
  function CustomerEntry(entries: seq<CustomerSales>, id: string): Option<nat>
  {
    Find(entries, CustomerKey(id))
  }

  /** The entry of an order's customer, created from the order when missing,
      with the order's shipped amount and one order added to it. */
  function TallyOrder(entries: seq<CustomerSales>, order: SaleOrder): seq<CustomerSales>
  {
    match CustomerEntry(entries, order.customerId)
    case None =>
      entries + [CustomerSales(order.customerId, order.customerName, order.shippedAmount, 1)]
    case Some(k) => entries[k := AddOrder(entries[k], order)]
  }

  /** An entry with the order's shipped amount and one order added. */
  function AddOrder(e: CustomerSales, order: SaleOrder): (r: CustomerSales)
    ensures r.customerId == e.customerId && r.name == e.name
    ensures r.amount - e.amount == order.shippedAmount && r.orders - e.orders == 1
  {
    e.(amount := e.amount + order.shippedAmount, orders := e.orders + 1)
  }

  /** The `customerSales` dictionary after `saleOrders.forEach`. */
  function CustomerTally(orders: seq<SaleOrder>): seq<CustomerSales>
    decreases |orders|
  {
    if |orders| == 0 then []
    else TallyOrder(CustomerTally(orders[..|orders| - 1]), orders[|orders| - 1])
  }

  /** The loop of getTopCustomers, on the dictionary: an entry is created with
      zero totals the first time a customer is seen, then the order's shipped
      amount and one order are added to it. */
  method TallyCustomers(orders: seq<SaleOrder>) returns (entries: seq<CustomerSales>)
    ensures entries == CustomerTally(orders)
  {
    entries := [];
    var i := 0;
    while i < |orders|
      invariant 0 <= i <= |orders|
      invariant entries == CustomerTally(orders[..i])
    {
      var order := orders[i];
      ghost var before := entries;
      var k := CustomerEntry(entries, order.customerId);
      if k.None? {
        entries := entries + [CustomerSales(order.customerId, order.customerName, 0, 0)];
        k := Some(|entries| - 1);
      }
      ghost var found := entries;
      entries := entries[k.value := AddOrder(entries[k.value], order)];
      TallyAdded(before, order, found, k.value, entries);
      CustomerTallyStep(orders, i);
      i := i + 1;
    }
    assert orders[..|orders|] == orders;
  }

  /** The loop's two ways to reach the customer's entry (found, or created with
      zero totals) both end, once the order is added, in `TallyOrder`. */
  lemma TallyAdded(entries: seq<CustomerSales>, order: SaleOrder, found: seq<CustomerSales>, k: nat,
                   added: seq<CustomerSales>)
    requires || (CustomerEntry(entries, order.customerId) == Some(k) && found == entries)
             || (CustomerEntry(entries, order.customerId).None? && k == |entries|
                 && found == entries + [CustomerSales(order.customerId, order.customerName, 0, 0)])
    requires k < |found|
    requires added == found[k := AddOrder(found[k], order)]
    ensures added == TallyOrder(entries, order)
  {
  }

  /** The tally of one more order is that order added to the tally so far. */
  lemma CustomerTallyStep(orders: seq<SaleOrder>, i: nat)
    requires i < |orders|
    ensures CustomerTally(orders[..i + 1]) == TallyOrder(CustomerTally(orders[..i]), orders[i])
  {
    assert orders[..i + 1][..i] == orders[..i];
  }

  function ShippedAmountIn(entries: seq<CustomerSales>, id: string): int
  {
    match CustomerEntry(entries, id)
    case Some(k) => entries[k].amount
    case None => 0
  }

  function OrderCountIn(entries: seq<CustomerSales>, id: string): int
  {
    match CustomerEntry(entries, id)
    case Some(k) => entries[k].orders
    case None => 0
  }

  /** Reference totals: of one customer's sale orders, the shipped amounts and
      how many there are. */
  function CustomerShipped(orders: seq<SaleOrder>, id: string): int
    decreases |orders|
  {
    if |orders| == 0 then 0
    else
      var last := orders[|orders| - 1];
      CustomerShipped(orders[..|orders| - 1], id) + (if last.customerId == id then last.shippedAmount else 0)
  }

  function CustomerOrders(orders: seq<SaleOrder>, id: string): int
    decreases |orders|
  {
    if |orders| == 0 then 0
    else CustomerOrders(orders[..|orders| - 1], id) + (if orders[|orders| - 1].customerId == id then 1 else 0)
  }

  /** Some sale order is the customer's. */
  predicate Ordered(orders: seq<SaleOrder>, id: string)
  {
    exists i :: 0 <= i < |orders| && orders[i].customerId == id
  }

  lemma TallyOrderEffect(entries: seq<CustomerSales>, order: SaleOrder, id: string)
    ensures ShippedAmountIn(TallyOrder(entries, order), id)
         == ShippedAmountIn(entries, id) + (if order.customerId == id then order.shippedAmount else 0)
    ensures OrderCountIn(TallyOrder(entries, order), id)
         == OrderCountIn(entries, id) + (if order.customerId == id then 1 else 0)
    ensures CustomerEntry(TallyOrder(entries, order), id).Some?
        <==> CustomerEntry(entries, id).Some? || order.customerId == id
  {
    var r := TallyOrder(entries, order);
    var f := CustomerEntry(entries, id);
    match CustomerEntry(entries, order.customerId)
    case None =>
      var e := CustomerSales(order.customerId, order.customerName, order.shippedAmount, 1);
      assert r == entries + [e];
      FindAppend(entries, e, CustomerKey(id));
      if order.customerId == id {
        assert CustomerEntry(r, id) == Some(|entries|) && r[|entries|] == e;
      } else {
        assert CustomerEntry(r, id) == f;
        assert f.Some? ==> r[f.value] == entries[f.value];
      }
    case Some(k) =>
      var e := entries[k].(amount := entries[k].amount + order.shippedAmount, orders := entries[k].orders + 1);
      assert r == entries[k := e];
      FindUpdate(entries, k, e, CustomerKey(id));
      assert CustomerEntry(r, id) == f;
      if order.customerId == id {
        assert f == Some(k) && r[k] == e;
      } else {
        assert f.Some? ==> f.value != k && r[f.value] == entries[f.value];
      }
  }

  /** getTopCustomers' totals: the dictionary's entry for a customer holds the
      shipped amounts of the customer's sale orders and their number, and there
      is an entry exactly for the customers with a sale order. */
  lemma {:induction false} CustomerTallyTotals(orders: seq<SaleOrder>, id: string)
    ensures ShippedAmountIn(CustomerTally(orders), id) == CustomerShipped(orders, id)
    ensures OrderCountIn(CustomerTally(orders), id) == CustomerOrders(orders, id)
    ensures CustomerEntry(CustomerTally(orders), id).Some? <==> Ordered(orders, id)
    decreases |orders|
  {
    if |orders| > 0 {
      var init := orders[..|orders| - 1];
      CustomerTallyTotals(init, id);
      TallyOrderEffect(CustomerTally(init), orders[|orders| - 1], id);
      OrderedLast(orders, id);
    }
  }

  lemma OrderedLast(orders: seq<SaleOrder>, id: string)
    requires |orders| > 0
    ensures Ordered(orders, id) <==> Ordered(orders[..|orders| - 1], id) || orders[|orders| - 1].customerId == id
  {
    var init := orders[..|orders| - 1];
    if Ordered(orders, id) && orders[|orders| - 1].customerId != id {
      var i :| 0 <= i < |orders| && orders[i].customerId == id;
      assert init[i].customerId == id;
    }
    if Ordered(init, id) {
      var i :| 0 <= i < |init| && init[i].customerId == id;
      assert orders[i].customerId == id;
    }
  }

  /** No customer has two entries. */
  predicate UniqueCustomers(entries: seq<CustomerSales>)
  {
    forall i, j :: 0 <= i < j < |entries| ==> entries[i].customerId != entries[j].customerId
  }

  lemma {:induction false} CustomerTallyUnique(orders: seq<SaleOrder>)
    ensures UniqueCustomers(CustomerTally(orders))
    decreases |orders|
  {
    if |orders| > 0 {
      CustomerTallyUnique(orders[..|orders| - 1]);
    }
  }

  lemma UniqueCustomerEntry(entries: seq<CustomerSales>, k: nat)
    requires UniqueCustomers(entries) && k < |entries|
    ensures CustomerEntry(entries, entries[k].customerId) == Some(k)
  {
  }

  /** getTopCustomers: at most five customers, each once, largest shipped
      amount first, each with the total shipped amount and the number of its
      sale orders; a customer with orders that is not shown has no larger
      shipped amount than any customer shown. */
  method GetTopCustomers(orders: seq<SaleOrder>) returns (top: seq<CustomerSales>)
    ensures |top| == if |CustomerTally(orders)| < 5 then |CustomerTally(orders)| else 5
    ensures |top| < 5 ==> forall id :: Ordered(orders, id) ==> exists i :: 0 <= i < |top| && top[i].customerId == id
    ensures forall i, j :: 0 <= i < j < |top| ==> top[i].amount >= top[j].amount && top[i].customerId != top[j].customerId
    ensures forall i :: 0 <= i < |top| ==>
      Ordered(orders, top[i].customerId) &&
      top[i].amount == CustomerShipped(orders, top[i].customerId) &&
      top[i].orders == CustomerOrders(orders, top[i].customerId)
    ensures forall id :: Ordered(orders, id) && (forall i :: 0 <= i < |top| ==> top[i].customerId != id) ==>
      forall i :: 0 <= i < |top| ==> CustomerShipped(orders, id) <= top[i].amount
  {
    var entries := TallyCustomers(orders);
    CustomerTallyUnique(orders);
    top := Top(entries, (e: CustomerSales) => e.amount);
    TopCustomersUnique(entries, top);
    TopCustomersTotals(orders, entries, top);
    TopCustomersRest(orders, entries, top);
    if |top| < 5 {
      TopCustomersAll(orders, entries, top);
    }
  }

  lemma TopCustomersUnique(entries: seq<CustomerSales>, top: seq<CustomerSales>)
    requires UniqueCustomers(entries) && multiset(top) <= multiset(entries)
    ensures UniqueCustomers(top)
  {
    assert Distinct(entries);
    DistinctSubMultiset(entries, top);
    forall i, j | 0 <= i < j < |top| ensures top[i].customerId != top[j].customerId {
      assert top[i] in multiset(entries) && top[j] in multiset(entries);
      var k1 :| 0 <= k1 < |entries| && entries[k1] == top[i];
      var k2 :| 0 <= k2 < |entries| && entries[k2] == top[j];
    }
  }

  lemma TopCustomersTotals(orders: seq<SaleOrder>, entries: seq<CustomerSales>, top: seq<CustomerSales>)
    requires entries == CustomerTally(orders) && UniqueCustomers(entries)
    requires forall i :: 0 <= i < |top| ==> top[i] in entries
    ensures forall i :: 0 <= i < |top| ==>
      Ordered(orders, top[i].customerId) &&
      top[i].amount == CustomerShipped(orders, top[i].customerId) &&
      top[i].orders == CustomerOrders(orders, top[i].customerId)
  {
    forall i | 0 <= i < |top|
      ensures Ordered(orders, top[i].customerId)
      ensures top[i].amount == CustomerShipped(orders, top[i].customerId)
      ensures top[i].orders == CustomerOrders(orders, top[i].customerId)
    {
      var k :| 0 <= k < |entries| && entries[k] == top[i];
      UniqueCustomerEntry(entries, k);
      CustomerTallyTotals(orders, top[i].customerId);
    }
  }

  /** When fewer than five customers ordered, the top list holds every one. */
  lemma TopCustomersAll(orders: seq<SaleOrder>, entries: seq<CustomerSales>, top: seq<CustomerSales>)
    requires entries == CustomerTally(orders) && multiset(top) == multiset(entries)
    ensures forall id :: Ordered(orders, id) ==> exists i :: 0 <= i < |top| && top[i].customerId == id
  {
    forall id | Ordered(orders, id)
      ensures exists i :: 0 <= i < |top| && top[i].customerId == id
    {
      CustomerTallyTotals(orders, id);
      var k := CustomerEntry(entries, id).value;
      assert entries[k] in multiset(top);
      var i :| 0 <= i < |top| && top[i] == entries[k];
    }
  }

  lemma TopCustomersRest(orders: seq<SaleOrder>, entries: seq<CustomerSales>, top: seq<CustomerSales>)
    requires entries == CustomerTally(orders)
    requires forall k :: 0 <= k < |entries| && entries[k] !in top ==>
      forall i :: 0 <= i < |top| ==> entries[k].amount <= top[i].amount
    ensures forall id :: Ordered(orders, id) && (forall i :: 0 <= i < |top| ==> top[i].customerId != id) ==>
      forall i :: 0 <= i < |top| ==> CustomerShipped(orders, id) <= top[i].amount
  {
    forall id | Ordered(orders, id) && (forall i :: 0 <= i < |top| ==> top[i].customerId != id)
      ensures forall i :: 0 <= i < |top| ==> CustomerShipped(orders, id) <= top[i].amount
    {
      CustomerTallyTotals(orders, id);
      var k := CustomerEntry(entries, id).value;
      assert entries[k] !in top;
    }
  }
}
