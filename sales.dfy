/** The sale-order form of src/components/SalesManagement.tsx: building an
    order from the form, numbering it, handing it to the store as a new or an
    edited order, proposing ship quantities, and the tab filters. */
module Sales {
  import opened Seqs
  import opened Strings
  import opened Types
  import opened Catalog
  import opened OrderBook
  import opened Numbering
  import opened OrderForms
  import opened App

  /** The state of the order form (`orderData`). */
  datatype SaleForm = SaleForm(
    orderNo: string,
    customerId: string,
    orderDate: string,
    deliveryDate: string,
    status: SaleStatus,
    items: seq<FormLine>)

  /** `customers.find(c => c.id === id)`. */
  function FindCustomer(customers: seq<Customer>, id: string): (r: Option<nat>)
    ensures r.Some? ==> r.value < |customers| && customers[r.value].id == id
    ensures r.Some? ==> forall j :: 0 <= j < r.value ==> customers[j].id != id
    ensures r.None? <==> forall j :: 0 <= j < |customers| ==> customers[j].id != id
  {
    Find(customers, (c: Customer) => c.id == id)
  }

  /** The `orderData.items.map(...)` of handleSubmit: one item per form line, in
      order, with the line's product, quantity and price, the catalog name,
      nothing shipped, no batches yet, and `amount = quantity × price`. */
  function BuildItems(products: seq<Product>, lines: seq<FormLine>, stamp: string): (r: seq<SaleItem>)
    ensures |r| == |lines|
    ensures forall i :: 0 <= i < |lines| ==>
      r[i].id == ItemId(stamp, i) && r[i].productId == lines[i].productId &&
      r[i].productName == ProductName(products, lines[i].productId) &&
      r[i].quantity == lines[i].quantity && r[i].price == lines[i].price &&
      r[i].shippedQuantity == 0 && r[i].batches.None? && r[i].amount == lines[i].quantity * lines[i].price
  {
    seq(|lines|, i requires 0 <= i < |lines| =>
      SaleItem(ItemId(stamp, i), lines[i].productId, ProductName(products, lines[i].productId),
               lines[i].quantity, lines[i].price, 0, None, lines[i].quantity * lines[i].price))
  }

  /** `items.reduce((sum, item) => sum + item.amount, 0)`. */
  function TotalAmount(items: seq<SaleItem>): int
  {
    if |items| == 0 then 0 else items[0].amount + TotalAmount(items[1..])
  }

  /** Items whose amounts are the lines' `quantity × price` total to the lines'
      value. */
  lemma {:induction false} TotalOfLines(items: seq<SaleItem>, lines: seq<FormLine>)
    requires |items| == |lines|
    requires forall i :: 0 <= i < |items| ==> items[i].amount == lines[i].quantity * lines[i].price
    ensures TotalAmount(items) == LinesValue(lines)
    decreases |items|
  {
    if |items| > 0 {
      TotalOfLines(items[1..], lines[1..]);
    }
  }

  /** Items nothing of which is shipped have no shipped value. */
  lemma {:induction false} NothingShipped(items: seq<SaleItem>)
    requires forall i :: 0 <= i < |items| ==> items[i].shippedQuantity == 0
    ensures ShippedValue(items) == 0
    decreases |items|
  {
    if |items| > 0 {
      NothingShipped(items[1..]);
    }
  }

  /** `orderData.orderNo || generateOrderNo()`: the user's number when there is
      one, else `SO-${year}${month}${day}-${random}` with three digits. */
  function OrderNo(form: SaleForm, clock: Clock, random: OrderDraw): (r: string)
    ensures form.orderNo != "" ==> r == form.orderNo
    ensures form.orderNo == "" ==>
      var prefix := "SO-" + DateStr(clock);
      |r| == |prefix| + 4 && r[..|prefix|] == prefix && r[|prefix|] == '-' &&
      AllDigits(r[|prefix| + 1..]) && DigitsValue(r[|prefix| + 1..]) == random
  {
    if form.orderNo != "" then form.orderNo else Sequenced("SO-" + DateStr(clock), random)
  }

  /** The `saleOrder` handleSubmit sends (without id and creation time). */
  function NewOrder(products: seq<Product>, customer: Customer, form: SaleForm, clock: Clock,
                    random: OrderDraw, stamp: string): SaleOrder
  {
    var items := BuildItems(products, form.items, stamp);
    SaleOrder("", OrderNo(form, clock, random), form.customerId, customer.name, form.orderDate,
              form.deliveryDate, form.status, items, TotalAmount(items), 0, 0)
  }

  /** The built order totals the form's lines and starts with nothing shipped. */
  lemma NewOrderTotals(products: seq<Product>, customer: Customer, form: SaleForm, clock: Clock,
                       random: OrderDraw, stamp: string)
    ensures var o := NewOrder(products, customer, form, clock, random, stamp);
      o.totalAmount == LinesValue(form.items) && o.shippedAmount == 0 && ShippedValue(o.items) == 0 &&
      o.customerName == customer.name && o.status == form.status && |o.items| == |form.items|
  {
    var items := BuildItems(products, form.items, stamp);
    TotalOfLines(items, form.items);
    NothingShipped(items);
  }

  /** What handleSubmit does to the sale orders: nothing for an unknown
      customer; otherwise the built order replaces the one being edited, or is
      added. */
  function Submission(orders: seq<SaleOrder>, products: seq<Product>, customers: seq<Customer>,
                      form: SaleForm, editing: Option<string>, clock: Clock, random: OrderDraw,
                      stamp: string, now: int): seq<SaleOrder>
  {
    match FindCustomer(customers, form.customerId)
    case None => orders
    case Some(c) =>
      var o := NewOrder(products, customers[c], form, clock, random, stamp);
      if editing.Some? then EditSaleOrder(orders, editing.value, o) else AddSaleOrder(orders, o, stamp, now)
  }

  /** handleSubmit through the store's handlers. */
  method Submit(store: Store, form: SaleForm, editing: Option<string>, clock: Clock, random: OrderDraw,
                stamp: string, now: int)
    modifies store`saleOrders
    ensures store.saleOrders == Submission(old(store.saleOrders), store.products, store.customers,
                                           form, editing, clock, random, stamp, now)
  {
    var c := FindCustomer(store.customers, form.customerId);
    if c.None? {
      return;
    }
    var order := NewOrder(store.products, store.customers[c.value], form, clock, random, stamp);
    if editing.Some? {
      store.EditSaleOrder(editing.value, order);
    } else {
      store.AddSaleOrder(order, stamp, now);
    }
  }

  /** Submitting for a customer that does not exist changes nothing. */
  lemma SubmitUnknownCustomer(orders: seq<SaleOrder>, products: seq<Product>, customers: seq<Customer>,
                              form: SaleForm, editing: Option<string>, clock: Clock, random: OrderDraw,
                              stamp: string, now: int)
    requires forall j :: 0 <= j < |customers| ==> customers[j].id != form.customerId
    ensures Submission(orders, products, customers, form, editing, clock, random, stamp, now) == orders
  {
  }

  /** A new order goes last, numbered, stamped, totalling the form's lines,
      with nothing shipped. */
  lemma SubmitAdds(orders: seq<SaleOrder>, products: seq<Product>, customers: seq<Customer>,
                   form: SaleForm, clock: Clock, random: OrderDraw, stamp: string, now: int, c: nat)
    requires FindCustomer(customers, form.customerId) == Some(c)
    ensures var r := Submission(orders, products, customers, form, None, clock, random, stamp, now);
      |r| == |orders| + 1 && r[..|orders|] == orders &&
      var o := r[|orders|];
      o.id == stamp && o.createTime == now && o.orderNo == OrderNo(form, clock, random) &&
      o.customerId == form.customerId && o.customerName == customers[c].name &&
      o.items == BuildItems(products, form.items, stamp) &&
      o.totalAmount == LinesValue(form.items) && o.shippedAmount == 0 && ShippedValue(o.items) == 0
  {
    NewOrderTotals(products, customers[c], form, clock, random, stamp);
  }

  /** Editing rebuilds the order's items from the form, so the order loses its
      shipping progress and its batch allocations: every item is back at 0
      shipped with no batches, and so is the shipped amount. The order keeps
      its id and creation time; other orders are untouched. */
  lemma SubmitEditResets(orders: seq<SaleOrder>, products: seq<Product>, customers: seq<Customer>,
                         form: SaleForm, id: string, clock: Clock, random: OrderDraw, stamp: string,
                         now: int, c: nat, k: nat)
    requires FindCustomer(customers, form.customerId) == Some(c)
    requires k < |orders| && orders[k].id == id
    ensures var r := Submission(orders, products, customers, form, Some(id), clock, random, stamp, now);
      |r| == |orders| && r[k].id == id && r[k].createTime == orders[k].createTime &&
      r[k].items == BuildItems(products, form.items, stamp) &&
      (forall i :: 0 <= i < |r[k].items| ==> r[k].items[i].shippedQuantity == 0 && r[k].items[i].batches.None?) &&
      r[k].shippedAmount == 0 && r[k].totalAmount == LinesValue(form.items) &&
      forall j :: 0 <= j < |orders| && orders[j].id != id ==> r[j] == orders[j]
  {
    NewOrderTotals(products, customers[c], form, clock, random, stamp);
  }

  /** handleShipOrder: one ship line per item, in item order, asking for what
      is still to ship. */
  function ShipDefaults(order: SaleOrder): (r: seq<ShipLine>)
    ensures |r| == |order.items|
    ensures forall i :: 0 <= i < |r| ==>
      r[i].productId == order.items[i].productId &&
      r[i].shippedQuantity == order.items[i].quantity - order.items[i].shippedQuantity
  {
    seq(|order.items|, i requires 0 <= i < |order.items| =>
      ShipLine(order.items[i].productId, order.items[i].quantity - order.items[i].shippedQuantity))
  }

  /** The products of the items, in order. */
  function ItemProducts(items: seq<SaleItem>): (r: seq<string>)
    ensures |r| == |items| && forall i :: 0 <= i < |items| ==> r[i] == items[i].productId
  {
    seq(|items|, i requires 0 <= i < |items| => items[i].productId)
  }

  /** When no product appears on two items, shipping the proposed quantities
      brings every item to exactly its ordered quantity, so the order becomes
      `completed`. */
  lemma ShipDefaultsComplete(order: SaleOrder)
    requires Distinct(ItemProducts(order.items))
    ensures var items := ApplyShipment(order.items, ShipDefaults(order));
      (forall i :: 0 <= i < |items| ==> items[i].shippedQuantity == items[i].quantity) &&
      ShipmentStatus(items) == SaleStatus.Completed
  {
    var items := ApplyShipment(order.items, ShipDefaults(order));
    forall i | 0 <= i < |items|
      ensures items[i].shippedQuantity == items[i].quantity
    {
      ShipDefaultsFor(order, i);
    }
  }

  /** The proposed line for the i-th item is the one the request finds for its
      product, when no product appears on two items. */
  lemma ShipDefaultsFor(order: SaleOrder, i: nat)
    requires Distinct(ItemProducts(order.items)) && i < |order.items|
    ensures ShipmentFor(ShipDefaults(order), order.items[i].productId)
         == order.items[i].quantity - order.items[i].shippedQuantity
  {
    var lines := ShipDefaults(order);
    var pid := order.items[i].productId;
    assert lines[i].productId == pid;
    var q := RequestedShipment(lines, pid);
    assert q.Some?;
    var j :| 0 <= j < |lines| && lines[j].productId == pid && q.value == lines[j].shippedQuantity &&
      forall m :: 0 <= m < j ==> lines[m].productId != pid;
    assert ItemProducts(order.items)[j] == ItemProducts(order.items)[i];
    assert j == i;
  }

  /** The "pending" tab: pending or confirmed orders. */
  function PendingOrders(orders: seq<SaleOrder>): (r: seq<SaleOrder>)
    ensures forall k :: 0 <= k < |r| ==> r[k] in orders && IsPendingSale(r[k])
    ensures forall k :: 0 <= k < |orders| && IsPendingSale(orders[k]) ==> orders[k] in r
    ensures Filtered(r, orders, IsPendingSale)
  {
    Filter(orders, IsPendingSale)
  }

  /** The "shipped" tab: shipped orders. */
  function ShippedOrders(orders: seq<SaleOrder>): (r: seq<SaleOrder>)
    ensures forall k :: 0 <= k < |r| ==> r[k] in orders && r[k].status == SaleStatus.Shipped
    ensures forall k :: 0 <= k < |orders| && orders[k].status == SaleStatus.Shipped ==> orders[k] in r
    ensures Filtered(r, orders, (o: SaleOrder) => o.status == SaleStatus.Shipped)
  {
    Filter(orders, (o: SaleOrder) => o.status == SaleStatus.Shipped)
  }

  /** The "completed" tab: completed orders. */
  function CompletedOrders(orders: seq<SaleOrder>): (r: seq<SaleOrder>)
    ensures forall k :: 0 <= k < |r| ==> r[k] in orders && r[k].status == SaleStatus.Completed
    ensures forall k :: 0 <= k < |orders| && orders[k].status == SaleStatus.Completed ==> orders[k] in r
    ensures Filtered(r, orders, (o: SaleOrder) => o.status == SaleStatus.Completed)
  {
    Filter(orders, (o: SaleOrder) => o.status == SaleStatus.Completed)
  }

  /** No order is on two tabs. */
  lemma TabsDisjoint(orders: seq<SaleOrder>)
    ensures forall k :: 0 <= k < |PendingOrders(orders)| ==>
      PendingOrders(orders)[k] !in ShippedOrders(orders) && PendingOrders(orders)[k] !in CompletedOrders(orders)
    ensures forall k :: 0 <= k < |ShippedOrders(orders)| ==> ShippedOrders(orders)[k] !in CompletedOrders(orders)
  {
  }
}
