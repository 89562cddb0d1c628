/** The purchase-order form of src/components/PurchaseManagement.tsx: building
    an order from the form, numbering it, handing it to the store as a new or
    an edited order, proposing receive quantities, and the tab filters. */
module Purchase {
  import opened Seqs
  import opened Strings
  import opened Types
  import opened Catalog
  import opened OrderBook
  import opened Numbering
  import opened OrderForms
  import opened App

  /** The state of the order form (`orderData`). */
  datatype PurchaseForm = PurchaseForm(
    orderNo: string,
    supplierId: string,
    orderDate: string,
    expectedDate: string,
    status: PurchaseStatus,
    items: seq<FormLine>)

  /** `suppliers.find(s => s.id === id)`. */
  function FindSupplier(suppliers: seq<Supplier>, id: string): (r: Option<nat>)
    ensures r.Some? ==> r.value < |suppliers| && suppliers[r.value].id == id
    ensures r.Some? ==> forall j :: 0 <= j < r.value ==> suppliers[j].id != id
    ensures r.None? <==> forall j :: 0 <= j < |suppliers| ==> suppliers[j].id != id
  {
    Find(suppliers, (s: Supplier) => s.id == id)
  }

  /** The `orderData.items.map(...)` of handleSubmit: one item per form line, in
      order, with the line's product, quantity and price, the catalog name, none
      of it received yet, and `amount = quantity × price`. */
  function BuildItems(products: seq<Product>, lines: seq<FormLine>, stamp: string): (r: seq<PurchaseItem>)
    ensures |r| == |lines|
    ensures forall i :: 0 <= i < |lines| ==>
      r[i].id == ItemId(stamp, i) && r[i].productId == lines[i].productId &&
      r[i].productName == ProductName(products, lines[i].productId) &&
      r[i].quantity == lines[i].quantity && r[i].price == lines[i].price &&
      r[i].receivedQuantity == 0 && r[i].amount == lines[i].quantity * lines[i].price
  {
    seq(|lines|, i requires 0 <= i < |lines| =>
      PurchaseItem(ItemId(stamp, i), lines[i].productId, ProductName(products, lines[i].productId),
                   lines[i].quantity, lines[i].price, 0, lines[i].quantity * lines[i].price))
  }

  /** `items.reduce((sum, item) => sum + item.amount, 0)`. */
  function TotalAmount(items: seq<PurchaseItem>): int
  {
    if |items| == 0 then 0 else items[0].amount + TotalAmount(items[1..])
  }

  /** Items whose amounts are the lines' `quantity × price` total to the lines'
      value. */
  lemma {:induction false} TotalOfLines(items: seq<PurchaseItem>, lines: seq<FormLine>)
    requires |items| == |lines|
    requires forall i :: 0 <= i < |items| ==> items[i].amount == lines[i].quantity * lines[i].price
    ensures TotalAmount(items) == LinesValue(lines)
    decreases |items|
  {
    if |items| > 0 {
      TotalOfLines(items[1..], lines[1..]);
    }
  }

  /** Items nothing of which is received have no received value. */
  lemma {:induction false} NothingReceived(items: seq<PurchaseItem>)
    requires forall i :: 0 <= i < |items| ==> items[i].receivedQuantity == 0
    ensures ReceivedValue(items) == 0
    decreases |items|
  {
    if |items| > 0 {
      NothingReceived(items[1..]);
    }
  }

  /** `orderData.orderNo || generateOrderNo()`: the user's number when there is
      one, else `PO-${year}${month}${day}-${random}` with three digits. */
  function OrderNo(form: PurchaseForm, clock: Clock, random: OrderDraw): (r: string)
    ensures form.orderNo != "" ==> r == form.orderNo
    ensures form.orderNo == "" ==>
      var prefix := "PO-" + DateStr(clock);
      |r| == |prefix| + 4 && r[..|prefix|] == prefix && r[|prefix|] == '-' &&
      AllDigits(r[|prefix| + 1..]) && DigitsValue(r[|prefix| + 1..]) == random
  {
    if form.orderNo != "" then form.orderNo else Sequenced("PO-" + DateStr(clock), random)
  }

  /** The `purchaseOrder` handleSubmit sends (without id and creation time). */
  function NewOrder(products: seq<Product>, supplier: Supplier, form: PurchaseForm, clock: Clock,
                    random: OrderDraw, stamp: string): PurchaseOrder
  {
    var items := BuildItems(products, form.items, stamp);
    PurchaseOrder("", OrderNo(form, clock, random), form.supplierId, supplier.name, form.orderDate,
                  form.expectedDate, form.status, items, TotalAmount(items), 0, 0)
  }

  /** The built order totals the form's lines and starts with nothing received. */
  lemma NewOrderTotals(products: seq<Product>, supplier: Supplier, form: PurchaseForm, clock: Clock,
                       random: OrderDraw, stamp: string)
    ensures var o := NewOrder(products, supplier, form, clock, random, stamp);
      o.totalAmount == LinesValue(form.items) && o.receivedAmount == 0 && ReceivedValue(o.items) == 0 &&
      o.supplierName == supplier.name && o.status == form.status && |o.items| == |form.items|
  {
    var items := BuildItems(products, form.items, stamp);
    TotalOfLines(items, form.items);
    NothingReceived(items);
  }

  /** What handleSubmit does to the purchase orders: nothing for an unknown
      supplier; otherwise the built order replaces the one being edited, or is
      added. */
  function Submission(orders: seq<PurchaseOrder>, products: seq<Product>, suppliers: seq<Supplier>,
                      form: PurchaseForm, editing: Option<string>, clock: Clock, random: OrderDraw,
                      stamp: string, now: int): seq<PurchaseOrder>
  {
    match FindSupplier(suppliers, form.supplierId)
    case None => orders
    case Some(s) =>
      var o := NewOrder(products, suppliers[s], form, clock, random, stamp);
      if editing.Some? then EditPurchaseOrder(orders, editing.value, o) else AddPurchaseOrder(orders, o, stamp, now)
  }

  /** handleSubmit through the store's handlers. */
  method Submit(store: Store, form: PurchaseForm, editing: Option<string>, clock: Clock, random: OrderDraw,
                stamp: string, now: int)
    modifies store`purchaseOrders
    ensures store.purchaseOrders == Submission(old(store.purchaseOrders), store.products, store.suppliers,
                                               form, editing, clock, random, stamp, now)
  {
    var s := FindSupplier(store.suppliers, form.supplierId);
    if s.None? {
      return;
    }
    var order := NewOrder(store.products, store.suppliers[s.value], form, clock, random, stamp);
    if editing.Some? {
      store.EditPurchaseOrder(editing.value, order);
    } else {
      store.AddPurchaseOrder(order, stamp, now);
    }
  }

  /** Submitting for a supplier that does not exist changes nothing. */
  lemma SubmitUnknownSupplier(orders: seq<PurchaseOrder>, products: seq<Product>, suppliers: seq<Supplier>,
                              form: PurchaseForm, editing: Option<string>, clock: Clock, random: OrderDraw,
                              stamp: string, now: int)
    requires forall j :: 0 <= j < |suppliers| ==> suppliers[j].id != form.supplierId
    ensures Submission(orders, products, suppliers, form, editing, clock, random, stamp, now) == orders
  {
  }

  /** A new order goes last, numbered, stamped, totalling the form's lines,
      with nothing received. */
  lemma SubmitAdds(orders: seq<PurchaseOrder>, products: seq<Product>, suppliers: seq<Supplier>,
                   form: PurchaseForm, clock: Clock, random: OrderDraw, stamp: string, now: int, s: nat)
    requires FindSupplier(suppliers, form.supplierId) == Some(s)
    ensures var r := Submission(orders, products, suppliers, form, None, clock, random, stamp, now);
      |r| == |orders| + 1 && r[..|orders|] == orders &&
      var o := r[|orders|];
      o.id == stamp && o.createTime == now && o.orderNo == OrderNo(form, clock, random) &&
      o.supplierId == form.supplierId && o.supplierName == suppliers[s].name &&
      o.items == BuildItems(products, form.items, stamp) &&
      o.totalAmount == LinesValue(form.items) && o.receivedAmount == 0 && ReceivedValue(o.items) == 0
  {
    NewOrderTotals(products, suppliers[s], form, clock, random, stamp);
  }

  /** Editing rebuilds the order's items from the form, so the order loses its
      receipt progress: every item is back at 0 received and so is the
      received amount. The order keeps its id and creation time; other orders
      are untouched. */
  lemma SubmitEditResets(orders: seq<PurchaseOrder>, products: seq<Product>, suppliers: seq<Supplier>,
                         form: PurchaseForm, id: string, clock: Clock, random: OrderDraw, stamp: string,
                         now: int, s: nat, k: nat)
    requires FindSupplier(suppliers, form.supplierId) == Some(s)
    requires k < |orders| && orders[k].id == id
    ensures var r := Submission(orders, products, suppliers, form, Some(id), clock, random, stamp, now);
      |r| == |orders| && r[k].id == id && r[k].createTime == orders[k].createTime &&
      r[k].items == BuildItems(products, form.items, stamp) &&
      (forall i :: 0 <= i < |r[k].items| ==> r[k].items[i].receivedQuantity == 0) &&
      r[k].receivedAmount == 0 && r[k].totalAmount == LinesValue(form.items) &&
      forall j :: 0 <= j < |orders| && orders[j].id != id ==> r[j] == orders[j]
  {
    NewOrderTotals(products, suppliers[s], form, clock, random, stamp);
  }

  /** handleReceiveOrder: one receive line per item, in item order, asking
      for what is still outstanding. */
  function ReceiveDefaults(order: PurchaseOrder): (r: seq<ReceiveLine>)
    ensures |r| == |order.items|
    ensures forall i :: 0 <= i < |r| ==>
      r[i].productId == order.items[i].productId &&
      r[i].receivedQuantity == order.items[i].quantity - order.items[i].receivedQuantity
  {
    seq(|order.items|, i requires 0 <= i < |order.items| =>
      ReceiveLine(order.items[i].productId, order.items[i].quantity - order.items[i].receivedQuantity))
  }

  /** The products of the items, in order. */
  function ItemProducts(items: seq<PurchaseItem>): (r: seq<string>)
    ensures |r| == |items| && forall i :: 0 <= i < |items| ==> r[i] == items[i].productId
  {
    seq(|items|, i requires 0 <= i < |items| => items[i].productId)
  }

  /** When no product appears on two items, receiving the proposed quantities
      brings every item to exactly its ordered quantity, so the order becomes
      `received`. (With a product on two items, `items.find` gives both the
      first item's outstanding quantity.) */
  lemma ReceiveDefaultsComplete(order: PurchaseOrder)
    requires Distinct(ItemProducts(order.items))
    ensures var items := ApplyReceipt(order.items, ReceiveDefaults(order));
      (forall i :: 0 <= i < |items| ==> items[i].receivedQuantity == items[i].quantity) &&
      ReceiptStatus(items) == PurchaseStatus.Received
  {
    var items := ApplyReceipt(order.items, ReceiveDefaults(order));
    forall i | 0 <= i < |items|
      ensures items[i].receivedQuantity == items[i].quantity
    {
      ReceiveDefaultsFor(order, i);
    }
  }

  /** The proposed line for the i-th item is the one the request finds for its
      product, when no product appears on two items. */
  lemma ReceiveDefaultsFor(order: PurchaseOrder, i: nat)
    requires Distinct(ItemProducts(order.items)) && i < |order.items|
    ensures ReceiptFor(ReceiveDefaults(order), order.items[i].productId)
         == order.items[i].quantity - order.items[i].receivedQuantity
  {
    var lines := ReceiveDefaults(order);
    var pid := order.items[i].productId;
    assert lines[i].productId == pid;
    var q := RequestedReceipt(lines, pid);
    assert q.Some?;
    var j :| 0 <= j < |lines| && lines[j].productId == pid && q.value == lines[j].receivedQuantity &&
      forall m :: 0 <= m < j ==> lines[m].productId != pid;
    assert ItemProducts(order.items)[j] == ItemProducts(order.items)[i];
    assert j == i;
  }

  /** The "pending" tab: pending or confirmed orders. */
  function PendingOrders(orders: seq<PurchaseOrder>): (r: seq<PurchaseOrder>)
    ensures forall k :: 0 <= k < |r| ==> r[k] in orders && IsPendingPurchase(r[k])
    ensures forall k :: 0 <= k < |orders| && IsPendingPurchase(orders[k]) ==> orders[k] in r
    ensures Filtered(r, orders, IsPendingPurchase)
  {
    Filter(orders, IsPendingPurchase)
  }

  /** The "received" tab: received orders. */
  function ReceivedOrders(orders: seq<PurchaseOrder>): (r: seq<PurchaseOrder>)
    ensures forall k :: 0 <= k < |r| ==> r[k] in orders && r[k].status == PurchaseStatus.Received
    ensures forall k :: 0 <= k < |orders| && orders[k].status == PurchaseStatus.Received ==> orders[k] in r
    ensures Filtered(r, orders, (o: PurchaseOrder) => o.status == PurchaseStatus.Received)
  {
    Filter(orders, (o: PurchaseOrder) => o.status == PurchaseStatus.Received)
  }

  /** No order is on both tabs. */
  lemma TabsDisjoint(orders: seq<PurchaseOrder>)
    ensures forall k :: 0 <= k < |PendingOrders(orders)| ==> PendingOrders(orders)[k] !in ReceivedOrders(orders)
  {
  }
}
