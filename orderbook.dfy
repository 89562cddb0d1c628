/** The purchase-order and sale-order lists of the application's top-level state
    (src/App.tsx): the order handlers and the item and status update that opens
    handleReceivePurchase and handleShipSale. */
module OrderBook {
  import opened Seqs
  import opened Types

  // ---------------------------------------------------------------- receipt

  /** The quantity of the first receive line for the product (`items.find`), or
      `None` when no line names it. */
  function RequestedReceipt(lines: seq<ReceiveLine>, productId: string): (r: Option<int>)
    ensures r.None? <==> forall j :: 0 <= j < |lines| ==> lines[j].productId != productId
    ensures r.Some? ==>
      exists j :: 0 <= j < |lines| && lines[j].productId == productId && r.value == lines[j].receivedQuantity &&
        forall i :: 0 <= i < j ==> lines[i].productId != productId
  {
    match Find(lines, (l: ReceiveLine) => l.productId == productId)
    case Some(j) => Some(lines[j].receivedQuantity)
    case None => None
  }

  /** What a receipt adds to an item: the first matching line's quantity, else 0. */
  function ReceiptFor(lines: seq<ReceiveLine>, productId: string): int
  {
    match RequestedReceipt(lines, productId)
    case Some(q) => q
    case None => 0
  }

  /** `order.items.map(...)`: every item adds the first matching line's quantity to
      its received quantity and keeps everything else. */
  function ApplyReceipt(items: seq<PurchaseItem>, lines: seq<ReceiveLine>): (r: seq<PurchaseItem>)
    ensures |r| == |items|
    ensures forall k :: 0 <= k < |items| ==>
      r[k] == items[k].(receivedQuantity := items[k].receivedQuantity + ReceiptFor(lines, items[k].productId))
  {
    seq(|items|, k requires 0 <= k < |items| =>
      match RequestedReceipt(lines, items[k].productId)
      case Some(q) => items[k].(receivedQuantity := items[k].receivedQuantity + q)
      case None => items[k])
  }

  /** `items.reduce((sum, item) => sum + item.receivedQuantity * item.price, 0)`. */
  function ReceivedValue(items: seq<PurchaseItem>): int
  {
    if |items| == 0 then 0
    else items[0].receivedQuantity * items[0].price + ReceivedValue(items[1..])
  }

  /** The value of what a receive request brings in for these items: each item's
      requested quantity at its price. */
  function ReceiptValue(items: seq<PurchaseItem>, lines: seq<ReceiveLine>): int
  {
    if |items| == 0 then 0
    else ReceiptFor(lines, items[0].productId) * items[0].price + ReceiptValue(items[1..], lines)
  }

  /** A receipt raises the order's received amount by exactly the value received. */
  lemma {:induction false} ReceiptRaisesReceivedValue(items: seq<PurchaseItem>, lines: seq<ReceiveLine>)
    ensures ReceivedValue(ApplyReceipt(items, lines)) == ReceivedValue(items) + ReceiptValue(items, lines)
  {
    if |items| > 0 {
      var r := ApplyReceipt(items, lines);
      assert r[1..] == ApplyReceipt(items[1..], lines);
      ReceiptRaisesReceivedValue(items[1..], lines);
      var q := ReceiptFor(lines, items[0].productId);
      assert r[0].receivedQuantity * r[0].price
          == items[0].receivedQuantity * items[0].price + q * items[0].price by {
        assert r[0].receivedQuantity == items[0].receivedQuantity + q;
        assert r[0].price == items[0].price;
        MulAddRight(items[0].receivedQuantity, q, items[0].price);
      }
    }
  }

  /** Multiplication distributes over addition. */
  lemma MulAddRight(a: int, b: int, c: int)
    ensures (a + b) * c == a * c + b * c
  {
  }

  /** Receiving the same request twice adds it twice: the command is not idempotent. */
  lemma ReceiptTwiceAddsTwice(items: seq<PurchaseItem>, lines: seq<ReceiveLine>, k: nat)
    requires k < |items|
    ensures ApplyReceipt(ApplyReceipt(items, lines), lines)[k].receivedQuantity
         == items[k].receivedQuantity + 2 * ReceiptFor(lines, items[k].productId)
  {
  }

  /** `items.every(item => item.receivedQuantity >= item.quantity)`. */
  function AllReceived(items: seq<PurchaseItem>): (r: bool)
    ensures r <==> forall k :: 0 <= k < |items| ==> items[k].receivedQuantity >= items[k].quantity
  {
    if |items| == 0 then true
    else items[0].receivedQuantity >= items[0].quantity && AllReceived(items[1..])
  }

  /** `received` once every item is fully received, else `confirmed`. */
  function ReceiptStatus(items: seq<PurchaseItem>): (s: PurchaseStatus)
    ensures s == PurchaseStatus.Received || s == PurchaseStatus.Confirmed
    ensures s == PurchaseStatus.Received <==> forall k :: 0 <= k < |items| ==> items[k].receivedQuantity >= items[k].quantity
  {
    if AllReceived(items) then PurchaseStatus.Received else PurchaseStatus.Confirmed
  }

  /** `purchaseOrders.map(o => o.id === orderId ? { ...o, items, receivedAmount, status } : o)`. */
  function RecordReceipt(orders: seq<PurchaseOrder>, orderId: string, items: seq<PurchaseItem>): (r: seq<PurchaseOrder>)
    ensures |r| == |orders|
    ensures forall k :: 0 <= k < |orders| && orders[k].id == orderId ==>
      r[k] == orders[k].(items := items, receivedAmount := ReceivedValue(items), status := ReceiptStatus(items))
    ensures forall k :: 0 <= k < |orders| && orders[k].id != orderId ==> r[k] == orders[k]
  {
    seq(|orders|, k requires 0 <= k < |orders| =>
      if orders[k].id == orderId
      then orders[k].(items := items, receivedAmount := ReceivedValue(items), status := ReceiptStatus(items))
      else orders[k])
  }

  // --------------------------------------------------------------- shipment

  function RequestedShipment(lines: seq<ShipLine>, productId: string): (r: Option<int>)
    ensures r.None? <==> forall j :: 0 <= j < |lines| ==> lines[j].productId != productId
    ensures r.Some? ==>
      exists j :: 0 <= j < |lines| && lines[j].productId == productId && r.value == lines[j].shippedQuantity &&
        forall i :: 0 <= i < j ==> lines[i].productId != productId
  {
    match Find(lines, (l: ShipLine) => l.productId == productId)
    case Some(j) => Some(lines[j].shippedQuantity)
    case None => None
  }

  function ShipmentFor(lines: seq<ShipLine>, productId: string): int
  {
    match RequestedShipment(lines, productId)
    case Some(q) => q
    case None => 0
  }

  function ApplyShipment(items: seq<SaleItem>, lines: seq<ShipLine>): (r: seq<SaleItem>)
    ensures |r| == |items|
    ensures forall k :: 0 <= k < |items| ==>
      r[k] == items[k].(shippedQuantity := items[k].shippedQuantity + ShipmentFor(lines, items[k].productId))
  {
    seq(|items|, k requires 0 <= k < |items| =>
      match RequestedShipment(lines, items[k].productId)
      case Some(q) => items[k].(shippedQuantity := items[k].shippedQuantity + q)
      case None => items[k])
  }

  /** `items.reduce((sum, item) => sum + item.shippedQuantity * item.price, 0)`. */
  function ShippedValue(items: seq<SaleItem>): int
  {
    if |items| == 0 then 0
    else items[0].shippedQuantity * items[0].price + ShippedValue(items[1..])
  }

  function ShipmentValue(items: seq<SaleItem>, lines: seq<ShipLine>): int
  {
    if |items| == 0 then 0
    else ShipmentFor(lines, items[0].productId) * items[0].price + ShipmentValue(items[1..], lines)
  }

  /** A shipment raises the order's shipped amount by exactly the value shipped. */
  lemma {:induction false} ShipmentRaisesShippedValue(items: seq<SaleItem>, lines: seq<ShipLine>)
    ensures ShippedValue(ApplyShipment(items, lines)) == ShippedValue(items) + ShipmentValue(items, lines)
  {
    if |items| > 0 {
      var r := ApplyShipment(items, lines);
      assert r[1..] == ApplyShipment(items[1..], lines);
      ShipmentRaisesShippedValue(items[1..], lines);
      var q := ShipmentFor(lines, items[0].productId);
      assert r[0].shippedQuantity * r[0].price
          == items[0].shippedQuantity * items[0].price + q * items[0].price by {
        assert r[0].shippedQuantity == items[0].shippedQuantity + q;
        assert r[0].price == items[0].price;
        MulAddRight(items[0].shippedQuantity, q, items[0].price);
      }
    }
  }

  /** `items.every(item => item.shippedQuantity >= item.quantity)`. */
  function AllShipped(items: seq<SaleItem>): (r: bool)
    ensures r <==> forall k :: 0 <= k < |items| ==> items[k].shippedQuantity >= items[k].quantity
  {
    if |items| == 0 then true
    else items[0].shippedQuantity >= items[0].quantity && AllShipped(items[1..])
  }

  /** `completed` once every item is fully shipped, else `shipped`. */
  function ShipmentStatus(items: seq<SaleItem>): (s: SaleStatus)
    ensures s == SaleStatus.Completed || s == SaleStatus.Shipped
    ensures s == SaleStatus.Completed <==> forall k :: 0 <= k < |items| ==> items[k].shippedQuantity >= items[k].quantity
  {
    if AllShipped(items) then SaleStatus.Completed else SaleStatus.Shipped
  }

  function RecordShipment(orders: seq<SaleOrder>, orderId: string, items: seq<SaleItem>): (r: seq<SaleOrder>)
    ensures |r| == |orders|
    ensures forall k :: 0 <= k < |orders| && orders[k].id == orderId ==>
      r[k] == orders[k].(items := items, shippedAmount := ShippedValue(items), status := ShipmentStatus(items))
    ensures forall k :: 0 <= k < |orders| && orders[k].id != orderId ==> r[k] == orders[k]
  {
    seq(|orders|, k requires 0 <= k < |orders| =>
      if orders[k].id == orderId
      then orders[k].(items := items, shippedAmount := ShippedValue(items), status := ShipmentStatus(items))
      else orders[k])
  }

  // ------------------------------------------------------ order list handlers

  /** handleAddPurchaseOrder: the order goes last with its id and creation time. */
  function AddPurchaseOrder(orders: seq<PurchaseOrder>, data: PurchaseOrder, stamp: string, now: int): (r: seq<PurchaseOrder>)
    ensures |r| == |orders| + 1 && r[..|orders|] == orders
    ensures r[|orders|] == data.(id := stamp, createTime := now)
  {
    orders + [data.(id := stamp, createTime := now)]
  }

  /** handleEditPurchaseOrder with the full order data the form sends: every order
      with the id keeps only its id and creation time. */
  function EditPurchaseOrder(orders: seq<PurchaseOrder>, id: string, data: PurchaseOrder): (r: seq<PurchaseOrder>)
    ensures |r| == |orders|
    ensures forall k :: 0 <= k < |orders| && orders[k].id == id ==>
      r[k] == data.(id := id, createTime := orders[k].createTime)
    ensures forall k :: 0 <= k < |orders| && orders[k].id != id ==> r[k] == orders[k]
  {
    seq(|orders|, k requires 0 <= k < |orders| =>
      if orders[k].id == id then data.(id := id, createTime := orders[k].createTime) else orders[k])
  }

  /** handleDeletePurchaseOrder: the orders with other ids, in order. */
  function DeletePurchaseOrder(orders: seq<PurchaseOrder>, id: string): (r: seq<PurchaseOrder>)
    ensures forall k :: 0 <= k < |r| ==> r[k].id != id && r[k] in orders
    ensures forall k :: 0 <= k < |orders| && orders[k].id != id ==> orders[k] in r
    ensures Filtered(r, orders, (o: PurchaseOrder) => o.id != id)
  {
    Filter(orders, (o: PurchaseOrder) => o.id != id)
  }

  function AddSaleOrder(orders: seq<SaleOrder>, data: SaleOrder, stamp: string, now: int): (r: seq<SaleOrder>)
    ensures |r| == |orders| + 1 && r[..|orders|] == orders
    ensures r[|orders|] == data.(id := stamp, createTime := now)
  {
    orders + [data.(id := stamp, createTime := now)]
  }

  function EditSaleOrder(orders: seq<SaleOrder>, id: string, data: SaleOrder): (r: seq<SaleOrder>)
    ensures |r| == |orders|
    ensures forall k :: 0 <= k < |orders| && orders[k].id == id ==>
      r[k] == data.(id := id, createTime := orders[k].createTime)
    ensures forall k :: 0 <= k < |orders| && orders[k].id != id ==> r[k] == orders[k]
  {
    seq(|orders|, k requires 0 <= k < |orders| =>
      if orders[k].id == id then data.(id := id, createTime := orders[k].createTime) else orders[k])
  }

  function DeleteSaleOrder(orders: seq<SaleOrder>, id: string): (r: seq<SaleOrder>)
    ensures forall k :: 0 <= k < |r| ==> r[k].id != id && r[k] in orders
    ensures forall k :: 0 <= k < |orders| && orders[k].id != id ==> orders[k] in r
    ensures Filtered(r, orders, (o: SaleOrder) => o.id != id)
  {
    Filter(orders, (o: SaleOrder) => o.id != id)
  }

  /** `purchaseOrders.find(o => o.id === orderId)`. */
  function FindPurchaseOrder(orders: seq<PurchaseOrder>, id: string): (r: Option<nat>)
    ensures r.Some? ==> r.value < |orders| && orders[r.value].id == id
    ensures r.Some? ==> forall j :: 0 <= j < r.value ==> orders[j].id != id
    ensures r.None? <==> forall j :: 0 <= j < |orders| ==> orders[j].id != id
  {
    Find(orders, (o: PurchaseOrder) => o.id == id)
  }

  /** `saleOrders.find(o => o.id === orderId)`. */
  function FindSaleOrder(orders: seq<SaleOrder>, id: string): (r: Option<nat>)
    ensures r.Some? ==> r.value < |orders| && orders[r.value].id == id
    ensures r.Some? ==> forall j :: 0 <= j < r.value ==> orders[j].id != id
    ensures r.None? <==> forall j :: 0 <= j < |orders| ==> orders[j].id != id
  {
    Find(orders, (o: SaleOrder) => o.id == id)
  }
}
