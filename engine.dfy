/** The stock mutation engine of src/App.tsx as functions of the whole application
    state: receiving against a purchase order and shipping against a sale order,
    one request line after the other.

    The handlers run their request lines in a `forEach` and call
    `setProducts(products.map(...))` with the array captured when the handler
    started, so every line maps that same array and only the last applying
    line's stock change is kept, and the FIFO candidates of every line come
    from the batch list as it was before the call. This model applies the lines one after the other,
    each seeing the state the previous line left, which is what the code is
    written to do. */
module Ledger {
  import opened Seqs
  import opened Strings
  import opened Types
  import opened Catalog
  import opened OrderBook
  import opened Fifo

  /** The arrays the stock engine writes: the products (for their stock), the
      inventory records, the batches and the batch movements. */
  datatype Books = Books(
    products: seq<Product>,
    records: seq<InventoryRecord>,
    batches: seq<InventoryBatch>,
    movements: seq<BatchMovement>)

  /** The application's entity arrays. */
  datatype State = State(
    books: Books,
    suppliers: seq<Supplier>,
    customers: seq<Customer>,
    purchaseOrders: seq<PurchaseOrder>,
    saleOrders: seq<SaleOrder>)

  /** How far a product's stock is above what its batches still hold. */
  function Gap(B: Books, pid: string): int
  {
    StockOf(B.products, pid) - BatchTotal(B.batches, pid)
  }

  /** Every product's stock equals what its batches hold. */
  ghost predicate Balanced(B: Books)
  {
    forall pid :: Gap(B, pid) == 0
  }

  // -------------------------------------------------- record and batch handlers

  /** handleAddInventoryRecord: the record's product takes the record's
      `afterStock`, and the record, stamped, goes first. */
  function AddRecord(B: Books, data: InventoryRecord, stamp: string, now: int): (r: Books)
    ensures |r.records| == |B.records| + 1 && r.records[1..] == B.records
    ensures r.records[0] == data.(id := stamp, createTime := now)
    ensures r.batches == B.batches && r.movements == B.movements
  {
    var stamped := data.(id := stamp, createTime := now);
    assert ([stamped] + B.records)[1..] == B.records;
    B.(products := WithStock(B.products, data.productId, data.afterStock, now),
       records := [stamped] + B.records)
  }

  /** Adding a record sets what its product's stock reads to `afterStock`, when
      the product exists, and moves no other product's stock. */
  lemma AddRecordStock(B: Books, data: InventoryRecord, stamp: string, now: int, x: string)
    ensures StockOf(AddRecord(B, data, stamp, now).products, x)
         == if x == data.productId && HasProduct(B.products, x) then data.afterStock else StockOf(B.products, x)
  {
    StockOfWithStock(B.products, data.productId, data.afterStock, now, x);
  }

  /** handleAddInventoryBatch: the batch goes last with its id and creation time. */
  function AddBatch(bs: seq<InventoryBatch>, data: InventoryBatch, stamp: string, now: int): (r: seq<InventoryBatch>)
    ensures |r| == |bs| + 1 && r[..|bs|] == bs
    ensures r[|bs|].id == stamp && r[|bs|].createTime == now
    ensures r[|bs|].(id := data.id, createTime := data.createTime) == data
  {
    bs + [data.(id := stamp, createTime := now)]
  }

  /** The fields a `Partial<InventoryBatch>` update may carry; `None` keeps the
      batch's value. */
  datatype BatchPatch = BatchPatch(
    remainingQuantity: Option<int>,
    status: Option<BatchStatus>,
    purchasePrice: Option<int>,
    productionDate: Option<string>,
    expiryDate: Option<string>)

  function Patched(b: InventoryBatch, patch: BatchPatch): InventoryBatch
  {
    b.(remainingQuantity := if patch.remainingQuantity.Some? then patch.remainingQuantity.value else b.remainingQuantity,
       status := if patch.status.Some? then patch.status.value else b.status,
       purchasePrice := if patch.purchasePrice.Some? then patch.purchasePrice.value else b.purchasePrice,
       productionDate := if patch.productionDate.Some? then patch.productionDate else b.productionDate,
       expiryDate := if patch.expiryDate.Some? then patch.expiryDate else b.expiryDate)
  }

  /** handleUpdateInventoryBatch: every batch with the id takes the patch's
      fields and keeps all others; the other batches are untouched. */
  function UpdateBatch(bs: seq<InventoryBatch>, id: string, patch: BatchPatch): (r: seq<InventoryBatch>)
    ensures |r| == |bs|
    ensures forall k :: 0 <= k < |bs| && bs[k].id != id ==> r[k] == bs[k]
    ensures forall k :: 0 <= k < |bs| && bs[k].id == id ==>
      (patch.remainingQuantity.Some? ==> r[k].remainingQuantity == patch.remainingQuantity.value) &&
      (patch.remainingQuantity.None? ==> r[k].remainingQuantity == bs[k].remainingQuantity) &&
      (patch.status.Some? ==> r[k].status == patch.status.value) &&
      (patch.status.None? ==> r[k].status == bs[k].status) &&
      (patch.purchasePrice.Some? ==> r[k].purchasePrice == patch.purchasePrice.value) &&
      (patch.purchasePrice.None? ==> r[k].purchasePrice == bs[k].purchasePrice) &&
      (patch.productionDate.Some? ==> r[k].productionDate == patch.productionDate) &&
      (patch.productionDate.None? ==> r[k].productionDate == bs[k].productionDate) &&
      (patch.expiryDate.Some? ==> r[k].expiryDate == patch.expiryDate) &&
      (patch.expiryDate.None? ==> r[k].expiryDate == bs[k].expiryDate)
    ensures forall k :: 0 <= k < |bs| && bs[k].id == id ==>
      r[k].(remainingQuantity := bs[k].remainingQuantity, status := bs[k].status,
            purchasePrice := bs[k].purchasePrice, productionDate := bs[k].productionDate,
            expiryDate := bs[k].expiryDate) == bs[k]
  {
    seq(|bs|, k requires 0 <= k < |bs| => if bs[k].id == id then Patched(bs[k], patch) else bs[k])
  }

  /** An empty patch changes nothing. */
  lemma UpdateBatchEmpty(bs: seq<InventoryBatch>, id: string)
    ensures UpdateBatch(bs, id, BatchPatch(None, None, None, None, None)) == bs
  {
    var r := UpdateBatch(bs, id, BatchPatch(None, None, None, None, None));
    assert forall k :: 0 <= k < |bs| ==> r[k] == bs[k];
  }

  /** handleAddBatchMovement: the movement goes last with its id and creation time. */
  function AddMovement(ms: seq<BatchMovement>, data: BatchMovement, stamp: string, now: int): (r: seq<BatchMovement>)
    ensures |r| == |ms| + 1 && r[..|ms|] == ms
    ensures r[|ms|] == data.(id := stamp, createTime := now)
  {
    ms + [data.(id := stamp, createTime := now)]
  }

  // ------------------------------------------------------------- receiving

  /** The reason prefixes of the records the engine writes. */
  const ReceiptReason: string := "采购入库 - 采购单: "
  const ShipmentReason: string := "销售出库 - 销售单: "

  /** `B${year}${month}${day}${hours}${minutes}${random}`, every part after the
      year two digits wide. */
  function ReceiptBatchNo(clock: Clock, random: Draw): (r: string)
    ensures |r| == |NatToString(clock.year)| + 11 && r[0] == 'B' && AllDigits(r[1..])
  {
    var digits := NatToString(clock.year) + TwoDigits(clock.month) + TwoDigits(clock.day)
      + TwoDigits(clock.hour) + TwoDigits(clock.minute) + TwoDigits(random);
    var r := "B" + digits;
    assert r[1..] == digits;
    r
  }

  /** The batch number is the one the template literal builds with `padStart(2, '0')`. */
  lemma ReceiptBatchNoPadded(clock: Clock, random: Draw)
    ensures ReceiptBatchNo(clock, random)
         == "B" + NatToString(clock.year) + ZeroPadded(clock.month, 2) + ZeroPadded(clock.day, 2)
            + ZeroPadded(clock.hour, 2) + ZeroPadded(clock.minute, 2) + ZeroPadded(random, 2)
  {
    TwoDigitsPadded(clock.month);
    TwoDigitsPadded(clock.day);
    TwoDigitsPadded(clock.hour);
    TwoDigitsPadded(clock.minute);
    TwoDigitsPadded(random);
  }

  /** `updatedItems.find(i => i.productId === pid)?.price || product.purchasePrice`:
      the first item's price, unless there is no item or its price is 0. */
  function ReceiptCost(items: seq<PurchaseItem>, pid: string, p: Product): (c: int)
    ensures (forall k :: 0 <= k < |items| ==> items[k].productId != pid) ==> c == p.purchasePrice
    ensures forall k :: (0 <= k < |items| && items[k].productId == pid &&
                         (forall j :: 0 <= j < k ==> items[j].productId != pid)) ==>
                        c == if items[k].price != 0 then items[k].price else p.purchasePrice
  {
    match Find(items, (i: PurchaseItem) => i.productId == pid)
    case Some(k) => if items[k].price != 0 then items[k].price else p.purchasePrice
    case None => p.purchasePrice
  }

  function ReceiptBatch(order: PurchaseOrder, items: seq<PurchaseItem>, line: ReceiveLine, p: Product,
                        batchNo: string, stamp: string, now: int): InventoryBatch
  {
    InventoryBatch(
      stamp + "-" + line.productId, batchNo, line.productId, p.name,
      line.receivedQuantity, line.receivedQuantity, ReceiptCost(items, line.productId, p),
      order.supplierId, order.supplierName, order.id, order.orderNo,
      None, None, BatchStatus.Active, now)
  }

  function ReceiptRecord(order: PurchaseOrder, line: ReceiveLine, p: Product,
                         batchNo: string, stamp: string, now: int): InventoryRecord
  {
    InventoryRecord(
      stamp + "-" + line.productId, line.productId, p.name, RecordType.In,
      line.receivedQuantity, p.stock, p.stock + line.receivedQuantity,
      ReceiptReason + order.orderNo, Some(batchNo), Some(order.id), Some(order.orderNo),
      OperatorId, OperatorName, now)
  }

  function ReceiptMovement(order: PurchaseOrder, line: ReceiveLine, batchNo: string,
                           stamp: string, now: int): BatchMovement
  {
    BatchMovement(
      stamp + "-movement-" + line.productId, stamp + "-" + line.productId, batchNo, line.productId,
      MovementType.In, line.receivedQuantity, line.receivedQuantity,
      order.id, order.orderNo, OrderType.Purchase, now)
  }


  /** A request line changes the books only with a positive quantity of a known
      product. */
  predicate Applies(B: Books, pid: string, q: int)
  {
    q > 0 && HasProduct(B.products, pid)
  }

  /** One received line: a positive quantity of a known product raises its stock,
      appends a batch, prepends an `in` record and appends an `in` movement. */
  function ReceiveLineStep(B: Books, order: PurchaseOrder, items: seq<PurchaseItem>, line: ReceiveLine,
                           batchNo: string, stamp: string, now: int): Books
  {
    if line.receivedQuantity <= 0 then B
    else match FindProduct(B.products, line.productId)
      case None => B
      case Some(k) =>
        var p := B.products[k];
        Books(WithStock(B.products, line.productId, StockOf(B.products, line.productId) + line.receivedQuantity, now),
              [ReceiptRecord(order, line, p, batchNo, stamp, now)] + B.records,
              B.batches + [ReceiptBatch(order, items, line, p, batchNo, stamp, now)],
              B.movements + [ReceiptMovement(order, line, batchNo, stamp, now)])
  }

  /** The batch numbers of the lines of one receipt, one random draw per line. */
  function BatchNumbers(clock: Clock, randoms: seq<Draw>): (r: seq<string>)
    ensures |r| == |randoms|
    ensures forall i :: 0 <= i < |r| ==> |r[i]| >= 11 && r[i][0] == 'B' && AllDigits(r[i][1..])
  {
    seq(|randoms|, i requires 0 <= i < |randoms| => ReceiptBatchNo(clock, randoms[i]))
  }

  /** The `items.forEach` over the receive request. */
  function ReceiveLines(B: Books, order: PurchaseOrder, items: seq<PurchaseItem>, lines: seq<ReceiveLine>,
                        batchNos: seq<string>, stamp: string, now: int): Books
    requires |batchNos| == |lines|
    decreases |lines|
  {
    if |lines| == 0 then B
    else ReceiveLines(ReceiveLineStep(B, order, items, lines[0], batchNos[0], stamp, now),
                      order, items, lines[1..], batchNos[1..], stamp, now)
  }

  /** Receiving the lines from the i-th on is receiving the i-th, then the rest. */
  lemma ReceiveLinesFrom(B: Books, order: PurchaseOrder, items: seq<PurchaseItem>, lines: seq<ReceiveLine>,
                         batchNos: seq<string>, stamp: string, now: int, i: nat)
    requires |batchNos| == |lines| && i < |lines|
    ensures ReceiveLines(B, order, items, lines[i..], batchNos[i..], stamp, now)
         == ReceiveLines(ReceiveLineStep(B, order, items, lines[i], batchNos[i], stamp, now),
                         order, items, lines[i + 1..], batchNos[i + 1..], stamp, now)
  {
    assert lines[i..][0] == lines[i] && batchNos[i..][0] == batchNos[i];
    assert lines[i..][1..] == lines[i + 1..] && batchNos[i..][1..] == batchNos[i + 1..];
  }

  /** handleReceivePurchase: nothing happens for an unknown order; otherwise the
      order records the receipt, and every line is received in turn against the
      order as it was and the item list with the receipt applied. `batchNos`
      are the batch numbers the lines draw, one per line (`BatchNumbers`). */
  function Receive(L: State, orderId: string, lines: seq<ReceiveLine>, batchNos: seq<string>,
                   stamp: string, now: int): State
    requires |batchNos| == |lines|
  {
    match FindPurchaseOrder(L.purchaseOrders, orderId)
    case None => L
    case Some(k) =>
      var order := L.purchaseOrders[k];
      var items := ApplyReceipt(order.items, lines);
      L.(purchaseOrders := RecordReceipt(L.purchaseOrders, orderId, items),
         books := ReceiveLines(L.books, order, items, lines, batchNos, stamp, now))
  }

  /** The state `Receive` yields for an order found at index `k`. */
  lemma ReceiveFound(L: State, orderId: string, lines: seq<ReceiveLine>, batchNos: seq<string>,
                     stamp: string, now: int, k: nat, order: PurchaseOrder, items: seq<PurchaseItem>,
                     books: Books, orders: seq<PurchaseOrder>)
    requires |batchNos| == |lines| && FindPurchaseOrder(L.purchaseOrders, orderId) == Some(k)
    requires L.purchaseOrders[k] == order && items == ApplyReceipt(order.items, lines)
    requires orders == RecordReceipt(L.purchaseOrders, orderId, items)
    requires books == ReceiveLines(L.books, order, items, lines, batchNos, stamp, now)
    ensures Receive(L, orderId, lines, batchNos, stamp, now)
         == State(books, L.suppliers, L.customers, orders, L.saleOrders)
  {
  }

  /** A line that does not apply leaves the books as they are. */
  lemma ReceiveLineSkips(B: Books, order: PurchaseOrder, items: seq<PurchaseItem>, line: ReceiveLine,
                         batchNo: string, stamp: string, now: int)
    requires !Applies(B, line.productId, line.receivedQuantity)
    ensures ReceiveLineStep(B, order, items, line, batchNo, stamp, now) == B
  {
  }

  /** A received line sets its product's stock to the old stock plus the
      quantity. */
  lemma ReceiveLineProducts(B: Books, order: PurchaseOrder, items: seq<PurchaseItem>, line: ReceiveLine,
                            batchNo: string, stamp: string, now: int)
    requires Applies(B, line.productId, line.receivedQuantity)
    ensures ReceiveLineStep(B, order, items, line, batchNo, stamp, now).products
         == WithStock(B.products, line.productId, StockOf(B.products, line.productId) + line.receivedQuantity, now)
  {
  }

  /** A received line raises its product's stock by exactly its quantity and no
      other product's stock. */
  lemma ReceiveLineStock(B: Books, order: PurchaseOrder, items: seq<PurchaseItem>, line: ReceiveLine,
                         batchNo: string, stamp: string, now: int, x: string)
    requires Applies(B, line.productId, line.receivedQuantity)
    ensures StockOf(ReceiveLineStep(B, order, items, line, batchNo, stamp, now).products, x)
         == StockOf(B.products, x) + (if x == line.productId then line.receivedQuantity else 0)
  {
    ReceiveLineProducts(B, order, items, line, batchNo, stamp, now);
    StockOfRaised(B.products, ReceiveLineStep(B, order, items, line, batchNo, stamp, now).products,
                  line.productId, line.receivedQuantity, now, x);
  }

  /** A received line knows the same products as before. */
  lemma ReceiveLineKeepsProducts(B: Books, order: PurchaseOrder, items: seq<PurchaseItem>, line: ReceiveLine,
                                 batchNo: string, stamp: string, now: int, x: string)
    ensures HasProduct(ReceiveLineStep(B, order, items, line, batchNo, stamp, now).products, x)
         == HasProduct(B.products, x)
  {
    if Applies(B, line.productId, line.receivedQuantity) {
      ReceiveLineProducts(B, order, items, line, batchNo, stamp, now);
      StockOfRaised(B.products, ReceiveLineStep(B, order, items, line, batchNo, stamp, now).products,
                    line.productId, line.receivedQuantity, now, x);
    }
  }

  /** A received line appends one full, active batch of its product and
      quantity, costed by `ReceiptCost` and tied to the order and its supplier. */
  lemma ReceiveLineBatch(B: Books, order: PurchaseOrder, items: seq<PurchaseItem>, line: ReceiveLine,
                         batchNo: string, stamp: string, now: int)
    requires Applies(B, line.productId, line.receivedQuantity)
    ensures var r := ReceiveLineStep(B, order, items, line, batchNo, stamp, now);
      var p := B.products[FindProduct(B.products, line.productId).value];
      |r.batches| == |B.batches| + 1 && r.batches[..|B.batches|] == B.batches &&
      var b := r.batches[|B.batches|];
      b.productId == line.productId && b.quantity == line.receivedQuantity &&
      b.remainingQuantity == line.receivedQuantity && b.status == BatchStatus.Active &&
      b.batchNo == batchNo && b.purchasePrice == ReceiptCost(items, line.productId, p) &&
      b.purchaseOrderId == order.id && b.supplierId == order.supplierId &&
      b.id == stamp + "-" + line.productId
  {
  }

  /** A received line prepends one `in` record whose stock figures differ by the
      quantity and which names the batch and the order. */
  lemma ReceiveLineRecord(B: Books, order: PurchaseOrder, items: seq<PurchaseItem>, line: ReceiveLine,
                          batchNo: string, stamp: string, now: int)
    requires Applies(B, line.productId, line.receivedQuantity)
    ensures var r := ReceiveLineStep(B, order, items, line, batchNo, stamp, now);
      |r.records| == |B.records| + 1 && r.records[1..] == B.records &&
      var rec := r.records[0];
      rec.recordType == RecordType.In && rec.quantity == line.receivedQuantity &&
      rec.productId == line.productId && rec.beforeStock == StockOf(B.products, line.productId) &&
      rec.afterStock - rec.beforeStock == line.receivedQuantity &&
      rec.batchNo == Some(batchNo) && rec.relatedOrderId == Some(order.id)
  {
    var p := B.products[FindProduct(B.products, line.productId).value];
    assert ([ReceiptRecord(order, line, p, batchNo, stamp, now)] + B.records)[1..] == B.records;
  }

  /** A received line appends one `in` movement of the new batch. */
  lemma ReceiveLineMovement(B: Books, order: PurchaseOrder, items: seq<PurchaseItem>, line: ReceiveLine,
                            batchNo: string, stamp: string, now: int)
    requires Applies(B, line.productId, line.receivedQuantity)
    ensures var r := ReceiveLineStep(B, order, items, line, batchNo, stamp, now);
      |r.movements| == |B.movements| + 1 && r.movements[..|B.movements|] == B.movements &&
      |r.batches| == |B.batches| + 1 &&
      var m := r.movements[|B.movements|];
      m.movementType == MovementType.In && m.quantity == line.receivedQuantity &&
      m.remainingQuantity == line.receivedQuantity && m.batchId == r.batches[|B.batches|].id &&
      m.batchNo == batchNo && m.relatedOrderId == order.id && m.relatedOrderType == OrderType.Purchase
  {
  }

  /** A received line keeps every product's gap: the stock and the batches grow
      by the same quantity. */
  lemma ReceiveLineKeepsGap(B: Books, order: PurchaseOrder, items: seq<PurchaseItem>, line: ReceiveLine,
                            batchNo: string, stamp: string, now: int, x: string)
    ensures Gap(ReceiveLineStep(B, order, items, line, batchNo, stamp, now), x) == Gap(B, x)
  {
    var q, pid := line.receivedQuantity, line.productId;
    if Applies(B, pid, q) {
      var p := B.products[FindProduct(B.products, pid).value];
      var b := ReceiptBatch(order, items, line, p, batchNo, stamp, now);
      ReceiveLineStock(B, order, items, line, batchNo, stamp, now, x);
      assert ReceiveLineStep(B, order, items, line, batchNo, stamp, now).batches == B.batches + [b];
      BatchTotalAppend(B.batches, [b], x);
      assert BatchTotal([b], x) == if x == pid then q else 0;
    }
  }

  lemma {:induction false} ReceiveLinesKeepGap(B: Books, order: PurchaseOrder, items: seq<PurchaseItem>,
                                               lines: seq<ReceiveLine>, batchNos: seq<string>,
                                               stamp: string, now: int, x: string)
    requires |batchNos| == |lines|
    ensures Gap(ReceiveLines(B, order, items, lines, batchNos, stamp, now), x) == Gap(B, x)
    decreases |lines|
  {
    if |lines| > 0 {
      var B1 := ReceiveLineStep(B, order, items, lines[0], batchNos[0], stamp, now);
      ReceiveLineKeepsGap(B, order, items, lines[0], batchNos[0], stamp, now, x);
      ReceiveLinesKeepGap(B1, order, items, lines[1..], batchNos[1..], stamp, now, x);
    }
  }

  /** Two ids `stamp-a` and `stamp-b` differ when the products do. */
  lemma StampedIdsDiffer(stamp: string, a: string, b: string)
    requires a != b
    ensures stamp + "-" + a != stamp + "-" + b
  {
    var s := stamp + "-";
    assert (s + a)[|s|..] == a;
    assert (s + b)[|s|..] == b;
  }

  /** A receipt of two lines is the first line's step, then the second's. */
  lemma ReceiveTwoLines(B: Books, order: PurchaseOrder, items: seq<PurchaseItem>, l1: ReceiveLine, l2: ReceiveLine,
                        n1: string, n2: string, stamp: string, now: int)
    ensures ReceiveLines(B, order, items, [l1, l2], [n1, n2], stamp, now)
         == ReceiveLineStep(ReceiveLineStep(B, order, items, l1, n1, stamp, now), order, items, l2, n2, stamp, now)
  {
    var B1 := ReceiveLineStep(B, order, items, l1, n1, stamp, now);
    var B2 := ReceiveLineStep(B1, order, items, l2, n2, stamp, now);
    assert [l1, l2][1..] == [l2] && [n1, n2][1..] == [n2];
    assert ReceiveLines(B, order, items, [l1, l2], [n1, n2], stamp, now)
        == ReceiveLines(B1, order, items, [l2], [n2], stamp, now);
    assert [l2][1..] == [] && [n2][1..] == [];
    assert ReceiveLines(B1, order, items, [l2], [n2], stamp, now) == ReceiveLines(B2, order, items, [], [], stamp, now);
  }

  /** Twin batch ids, as written: every batch of one receipt is named
      `stamp-productId`, so two applying lines of the same product append two
      batches with one id, and the batch list is no longer keyed by id. */
  lemma TwinReceipt(B: Books, order: PurchaseOrder, items: seq<PurchaseItem>, l1: ReceiveLine, l2: ReceiveLine,
                    n1: string, n2: string, stamp: string, now: int)
    requires Applies(B, l1.productId, l1.receivedQuantity)
    requires l2.productId == l1.productId && l2.receivedQuantity > 0
    ensures var r := ReceiveLines(B, order, items, [l1, l2], [n1, n2], stamp, now);
      |r.batches| == |B.batches| + 2 &&
      r.batches[|B.batches|].id == stamp + "-" + l1.productId &&
      r.batches[|B.batches| + 1].id == stamp + "-" + l1.productId &&
      !IdsDistinct(r.batches)
  {
    var B1 := ReceiveLineStep(B, order, items, l1, n1, stamp, now);
    ReceiveLineBatch(B, order, items, l1, n1, stamp, now);
    ReceiveLineKeepsProducts(B, order, items, l1, n1, stamp, now, l2.productId);
    ReceiveLineBatch(B1, order, items, l2, n2, stamp, now);
    ReceiveTwoLines(B, order, items, l1, l2, n1, n2, stamp, now);
    var bs := ReceiveLineStep(B1, order, items, l2, n2, stamp, now).batches;
    var n := |B.batches|;
    assert bs[..n + 1] == B1.batches;
    assert bs[n] == B1.batches[n];
    assert bs[n].id == bs[n + 1].id;
  }

  /** The ids a receipt will give its batches are fresh: none is taken yet,
      and no two lines name the same product. */
  predicate FreshReceipt(bs: seq<InventoryBatch>, lines: seq<ReceiveLine>, stamp: string)
  {
    && (forall i, k :: 0 <= i < |lines| && 0 <= k < |bs| ==> bs[k].id != stamp + "-" + lines[i].productId)
    && (forall i, j :: 0 <= i < j < |lines| ==> lines[i].productId != lines[j].productId)
  }

  /** A received line whose id `stamp-productId` is not taken keeps the batch
      ids distinct. */
  lemma ReceiveLineKeepsIdsDistinct(B: Books, order: PurchaseOrder, items: seq<PurchaseItem>, line: ReceiveLine,
                                    batchNo: string, stamp: string, now: int)
    requires IdsDistinct(B.batches)
    requires forall k :: 0 <= k < |B.batches| ==> B.batches[k].id != stamp + "-" + line.productId
    ensures IdsDistinct(ReceiveLineStep(B, order, items, line, batchNo, stamp, now).batches)
  {
    if Applies(B, line.productId, line.receivedQuantity) {
      ReceiveLineBatch(B, order, items, line, batchNo, stamp, now);
    }
  }

  /** A receipt with fresh ids keeps the batch ids distinct, the condition the
      FIFO lemmas rely on. */
  lemma {:induction false} ReceiveLinesKeepIdsDistinct(B: Books, order: PurchaseOrder, items: seq<PurchaseItem>,
                                                       lines: seq<ReceiveLine>, batchNos: seq<string>,
                                                       stamp: string, now: int)
    requires |batchNos| == |lines| && IdsDistinct(B.batches) && FreshReceipt(B.batches, lines, stamp)
    ensures IdsDistinct(ReceiveLines(B, order, items, lines, batchNos, stamp, now).batches)
    decreases |lines|
  {
    if |lines| > 0 {
      var B1 := ReceiveLineStep(B, order, items, lines[0], batchNos[0], stamp, now);
      ReceiveLineKeepsIdsDistinct(B, order, items, lines[0], batchNos[0], stamp, now);
      var rest := lines[1..];
      forall i, k | 0 <= i < |rest| && 0 <= k < |B1.batches|
        ensures B1.batches[k].id != stamp + "-" + rest[i].productId
      {
        assert rest[i] == lines[i + 1];
        if Applies(B, lines[0].productId, lines[0].receivedQuantity) {
          ReceiveLineBatch(B, order, items, lines[0], batchNos[0], stamp, now);
          if k == |B.batches| {
            StampedIdsDiffer(stamp, lines[0].productId, rest[i].productId);
          } else {
            assert B1.batches[k] == B.batches[k];
          }
        }
      }
      ReceiveLinesKeepIdsDistinct(B1, order, items, rest, batchNos[1..], stamp, now);
    }
  }

  /** Receiving keeps `stock − Σ remainingQuantity` of every product, so a
      balanced state stays balanced. */
  lemma ReceiveKeepsGap(L: State, orderId: string, lines: seq<ReceiveLine>, batchNos: seq<string>,
                        stamp: string, now: int)
    requires |batchNos| == |lines|
    ensures forall x :: Gap(Receive(L, orderId, lines, batchNos, stamp, now).books, x) == Gap(L.books, x)
    ensures Balanced(L.books) ==> Balanced(Receive(L, orderId, lines, batchNos, stamp, now).books)
  {
    forall x ensures Gap(Receive(L, orderId, lines, batchNos, stamp, now).books, x) == Gap(L.books, x) {
      match FindPurchaseOrder(L.purchaseOrders, orderId)
      case None =>
      case Some(k) =>
        var order := L.purchaseOrders[k];
        var items := ApplyReceipt(order.items, lines);
        ReceiveLinesKeepGap(L.books, order, items, lines, batchNos, stamp, now, x);
    }
  }

  /** What receiving does to the orders: nothing at all for an unknown order;
      otherwise only the target order changes, its items take the receipt, its
      received amount grows by exactly the value received, and it is `received`
      exactly when every item is fully received and `confirmed` otherwise. */
  lemma ReceiveOrders(L: State, orderId: string, lines: seq<ReceiveLine>, batchNos: seq<string>,
                      stamp: string, now: int)
    requires |batchNos| == |lines|
    ensures var r := Receive(L, orderId, lines, batchNos, stamp, now);
      match FindPurchaseOrder(L.purchaseOrders, orderId)
      case None => r == L
      case Some(k) =>
        var o := L.purchaseOrders[k];
        |r.purchaseOrders| == |L.purchaseOrders| &&
        r.purchaseOrders[k].items == ApplyReceipt(o.items, lines) &&
        r.purchaseOrders[k].receivedAmount == ReceivedValue(o.items) + ReceiptValue(o.items, lines) &&
        (r.purchaseOrders[k].status == PurchaseStatus.Received <==>
           forall j :: 0 <= j < |o.items| ==>
             o.items[j].receivedQuantity + ReceiptFor(lines, o.items[j].productId) >= o.items[j].quantity) &&
        (r.purchaseOrders[k].status != PurchaseStatus.Received ==> r.purchaseOrders[k].status == PurchaseStatus.Confirmed) &&
        (forall j :: 0 <= j < |L.purchaseOrders| && L.purchaseOrders[j].id != orderId ==>
           r.purchaseOrders[j] == L.purchaseOrders[j]) &&
        r.saleOrders == L.saleOrders && r.suppliers == L.suppliers && r.customers == L.customers
  {
    match FindPurchaseOrder(L.purchaseOrders, orderId)
    case None =>
    case Some(k) =>
      var o := L.purchaseOrders[k];
      var items := ApplyReceipt(o.items, lines);
      ReceiptRaisesReceivedValue(o.items, lines);
      assert forall j :: 0 <= j < |o.items| ==>
        items[j].receivedQuantity == o.items[j].receivedQuantity + ReceiptFor(lines, o.items[j].productId);
  }

  /** Σ of the positive quantities of the request lines that name the product. */
  function RequestedTotal(lines: seq<ReceiveLine>, x: string): int
    decreases |lines|
  {
    if |lines| == 0 then 0
    else (if lines[0].productId == x && lines[0].receivedQuantity > 0 then lines[0].receivedQuantity else 0)
         + RequestedTotal(lines[1..], x)
  }

  /** Receiving raises every known product's stock by the sum of its positive
      request lines, and leaves an unknown id's stock reading at 0. */
  lemma {:induction false} ReceiveLinesStock(B: Books, order: PurchaseOrder, items: seq<PurchaseItem>,
                                             lines: seq<ReceiveLine>, batchNos: seq<string>,
                                             stamp: string, now: int, x: string)
    requires |batchNos| == |lines|
    ensures StockOf(ReceiveLines(B, order, items, lines, batchNos, stamp, now).products, x)
         == StockOf(B.products, x) + (if HasProduct(B.products, x) then RequestedTotal(lines, x) else 0)
    ensures HasProduct(ReceiveLines(B, order, items, lines, batchNos, stamp, now).products, x) == HasProduct(B.products, x)
    decreases |lines|
  {
    if |lines| > 0 {
      var line := lines[0];
      var B1 := ReceiveLineStep(B, order, items, line, batchNos[0], stamp, now);
      if Applies(B, line.productId, line.receivedQuantity) {
        ReceiveLineProducts(B, order, items, line, batchNos[0], stamp, now);
        StockOfRaised(B.products, B1.products, line.productId, line.receivedQuantity, now, x);
      } else {
        ReceiveLineSkips(B, order, items, line, batchNos[0], stamp, now);
      }
      ReceiveLinesStock(B1, order, items, lines[1..], batchNos[1..], stamp, now, x);
    }
  }

  // -------------------------------------------------------------- shipping

  function ShipRecord(order: SaleOrder, line: ShipLine, p: Product, used: seq<BatchAllocation>,
                      stamp: string, now: int): InventoryRecord
  {
    InventoryRecord(
      stamp + "-" + line.productId, line.productId, p.name, RecordType.Out,
      -line.shippedQuantity, p.stock, p.stock - line.shippedQuantity,
      ShipmentReason + order.orderNo, Some(Join(BatchNos(used), ", ")),
      Some(order.id), Some(order.orderNo), OperatorId, OperatorName, now)
  }

  function ShipContextOf(order: SaleOrder, line: ShipLine, stamp: string, now: int): ShipContext
  {
    ShipContext(line.productId, order.id, order.orderNo, stamp, now)
  }

  /** The FIFO allocation made for a shipped line. */
  function LineAllocation(B: Books, order: SaleOrder, line: ShipLine, stamp: string, now: int): Allocation
  {
    Allocate(B.batches, B.movements, Candidates(B.batches, line.productId), line.shippedQuantity,
             ShipContextOf(order, line, stamp, now))
  }

  /** One shipped line, given the FIFO allocation made for it: a positive
      quantity of a known product takes the allocation's batches and movements,
      and its stock drops by the whole quantity with one `out` record. */
  function ShipLineStep(B: Books, order: SaleOrder, line: ShipLine, a: Allocation, stamp: string, now: int): Books
  {
    if line.shippedQuantity <= 0 then B
    else match FindProduct(B.products, line.productId)
      case None => B
      case Some(k) =>
        var p := B.products[k];
        Books(WithStock(B.products, line.productId, StockOf(B.products, line.productId) - line.shippedQuantity, now),
              [ShipRecord(order, line, p, a.used, stamp, now)] + B.records,
              a.batches, a.movements)
  }

  /** The books after one shipped line. */
  function ShipOne(B: Books, order: SaleOrder, line: ShipLine, stamp: string, now: int): Books
  {
    ShipLineStep(B, order, line, LineAllocation(B, order, line, stamp, now), stamp, now)
  }

  /** The `items.forEach` over the ship request. */
  function ShipLines(B: Books, order: SaleOrder, lines: seq<ShipLine>, stamp: string, now: int): Books
    decreases |lines|
  {
    if |lines| == 0 then B
    else ShipLines(ShipOne(B, order, lines[0], stamp, now), order, lines[1..], stamp, now)
  }

  /** Shipping the lines from the i-th on is shipping the i-th, then the rest. */
  lemma ShipLinesFrom(B: Books, order: SaleOrder, lines: seq<ShipLine>, stamp: string, now: int, i: nat)
    requires i < |lines|
    ensures ShipLines(B, order, lines[i..], stamp, now)
         == ShipLines(ShipOne(B, order, lines[i], stamp, now), order, lines[i + 1..], stamp, now)
  {
    assert lines[i..][0] == lines[i] && lines[i..][1..] == lines[i + 1..];
  }

  /** handleShipSale: nothing happens for an unknown order; otherwise the order
      records the shipment and every line is shipped in turn. */
  function Ship(L: State, orderId: string, lines: seq<ShipLine>, stamp: string, now: int): State
  {
    match FindSaleOrder(L.saleOrders, orderId)
    case None => L
    case Some(k) =>
      var order := L.saleOrders[k];
      L.(saleOrders := RecordShipment(L.saleOrders, orderId, ApplyShipment(order.items, lines)),
         books := ShipLines(L.books, order, lines, stamp, now))
  }

  /** What shipping does to the orders: nothing at all for an unknown order;
      otherwise only the target order changes, its items take the shipment, its
      shipped amount grows by exactly the value shipped, and it is `completed`
      exactly when every item is fully shipped, else `shipped`. */
  lemma ShipOrders(L: State, orderId: string, lines: seq<ShipLine>, stamp: string, now: int)
    ensures var r := Ship(L, orderId, lines, stamp, now);
      match FindSaleOrder(L.saleOrders, orderId)
      case None => r == L
      case Some(k) =>
        var o := L.saleOrders[k];
        |r.saleOrders| == |L.saleOrders| &&
        r.saleOrders[k].items == ApplyShipment(o.items, lines) &&
        r.saleOrders[k].shippedAmount == ShippedValue(o.items) + ShipmentValue(o.items, lines) &&
        (r.saleOrders[k].status == SaleStatus.Completed <==>
           forall j :: 0 <= j < |o.items| ==>
             o.items[j].shippedQuantity + ShipmentFor(lines, o.items[j].productId) >= o.items[j].quantity) &&
        (r.saleOrders[k].status != SaleStatus.Completed ==> r.saleOrders[k].status == SaleStatus.Shipped) &&
        (forall j :: 0 <= j < |L.saleOrders| && L.saleOrders[j].id != orderId ==>
           r.saleOrders[j] == L.saleOrders[j]) &&
        r.purchaseOrders == L.purchaseOrders && r.suppliers == L.suppliers && r.customers == L.customers
  {
    match FindSaleOrder(L.saleOrders, orderId)
    case None =>
    case Some(k) =>
      var o := L.saleOrders[k];
      var items := ApplyShipment(o.items, lines);
      ShipmentRaisesShippedValue(o.items, lines);
      assert forall j :: 0 <= j < |o.items| ==>
        items[j].shippedQuantity == o.items[j].shippedQuantity + ShipmentFor(lines, o.items[j].productId);
  }

  /** The state `Ship` yields for an order found at index `k`. */
  lemma ShipFound(L: State, orderId: string, lines: seq<ShipLine>, stamp: string, now: int, k: nat,
                  order: SaleOrder, books: Books, orders: seq<SaleOrder>)
    requires FindSaleOrder(L.saleOrders, orderId) == Some(k) && L.saleOrders[k] == order
    requires orders == RecordShipment(L.saleOrders, orderId, ApplyShipment(order.items, lines))
    requires books == ShipLines(L.books, order, lines, stamp, now)
    ensures Ship(L, orderId, lines, stamp, now) == State(books, L.suppliers, L.customers, L.purchaseOrders, orders)
  {
  }

  /** A line that does not apply leaves the books as they are. */
  lemma ShipLineSkips(B: Books, order: SaleOrder, line: ShipLine, a: Allocation, stamp: string, now: int)
    requires !Applies(B, line.productId, line.shippedQuantity)
    ensures ShipLineStep(B, order, line, a, stamp, now) == B
  {
  }

  /** The books after a line that applies, its product `p` found at index `k`,
      given its FIFO allocation and the new product list and record list. */
  lemma ShipOneApplied(B: Books, order: SaleOrder, line: ShipLine, stamp: string, now: int, k: nat, p: Product,
                       a: Allocation, stock: int, ps: seq<Product>, rs: seq<InventoryRecord>)
    requires line.shippedQuantity > 0 && FindProduct(B.products, line.productId) == Some(k) && B.products[k] == p
    requires a == LineAllocation(B, order, line, stamp, now)
    requires stock == p.stock - line.shippedQuantity && ps == WithStock(B.products, line.productId, stock, now)
    requires rs == [ShipRecord(order, line, p, a.used, stamp, now)] + B.records
    ensures ShipOne(B, order, line, stamp, now) == Books(ps, rs, a.batches, a.movements)
  {
    assert StockOf(B.products, line.productId) - line.shippedQuantity == stock;
    assert ShipOne(B, order, line, stamp, now) == ShipLineStep(B, order, line, a, stamp, now);
  }

  /** A shipped line sets its product's stock to the old stock minus the
      quantity. */
  lemma ShipLineProducts(B: Books, order: SaleOrder, line: ShipLine, a: Allocation, stamp: string, now: int)
    requires Applies(B, line.productId, line.shippedQuantity)
    ensures ShipLineStep(B, order, line, a, stamp, now).products
         == WithStock(B.products, line.productId, StockOf(B.products, line.productId) - line.shippedQuantity, now)
  {
  }

  /** A shipped line lowers its product's stock by the whole quantity, whatever
      the batches cover, and no other product's stock. */
  lemma ShipLineStock(B: Books, order: SaleOrder, line: ShipLine, a: Allocation, stamp: string, now: int, x: string)
    requires Applies(B, line.productId, line.shippedQuantity)
    ensures StockOf(ShipLineStep(B, order, line, a, stamp, now).products, x)
         == StockOf(B.products, x) - (if x == line.productId then line.shippedQuantity else 0)
  {
    ShipLineProducts(B, order, line, a, stamp, now);
    StockOfLowered(B.products, ShipLineStep(B, order, line, a, stamp, now).products,
                   line.productId, line.shippedQuantity, now, x);
  }

  /** A shipped line prepends one `out` record with a negative quantity, stock
      figures that differ by it, and the numbers of the batches it drew from
      joined by ", ". */
  lemma ShipLineRecord(B: Books, order: SaleOrder, line: ShipLine, a: Allocation, stamp: string, now: int)
    requires Applies(B, line.productId, line.shippedQuantity)
    ensures var r := ShipLineStep(B, order, line, a, stamp, now);
      |r.records| == |B.records| + 1 && r.records[1..] == B.records &&
      var rec := r.records[0];
      rec.recordType == RecordType.Out && rec.quantity == -line.shippedQuantity &&
      rec.productId == line.productId && rec.beforeStock == StockOf(B.products, line.productId) &&
      rec.afterStock == rec.beforeStock - line.shippedQuantity &&
      rec.batchNo == Some(Join(BatchNos(a.used), ", ")) && rec.relatedOrderId == Some(order.id)
  {
    var p := B.products[FindProduct(B.products, line.productId).value];
    assert ([ShipRecord(order, line, p, a.used, stamp, now)] + B.records)[1..] == B.records;
  }

  /** A shipped line's batches and movements are those of its allocation. */
  lemma ShipLineBatches(B: Books, order: SaleOrder, line: ShipLine, a: Allocation, stamp: string, now: int)
    requires Applies(B, line.productId, line.shippedQuantity)
    ensures var r := ShipLineStep(B, order, line, a, stamp, now);
      r.batches == a.batches && r.movements == a.movements
  {
  }

  /** What a shipped line asks for beyond what its product's drawable batches
      hold; zero exactly when the batches cover the line. */
  function LineShortfall(B: Books, line: ShipLine): (s: int)
    ensures s >= 0
    ensures s == 0 <==> !Applies(B, line.productId, line.shippedQuantity) ||
                        Available(B.batches, line.productId) >= line.shippedQuantity
  {
    var q := line.shippedQuantity;
    if !Applies(B, line.productId, q) then 0
    else q - Min(q, Available(B.batches, line.productId))
  }

  /** The candidates of a line satisfy what the FIFO lemmas ask of them. */
  lemma CandidatesFit(bs: seq<InventoryBatch>, pid: string)
    requires IdsDistinct(bs)
    ensures var cs := Candidates(bs, pid); FromList(bs, cs) && OfProduct(cs, pid) && AllPositive(cs)
  {
    CandidatesIdsDistinct(bs, pid);
  }

  /** The allocation of a shipped line takes `min(q, available)` from its
      product's batch total and nothing from any other product's. */
  lemma LineAllocationTotal(B: Books, order: SaleOrder, line: ShipLine, stamp: string, now: int, x: string)
    requires IdsDistinct(B.batches) && line.shippedQuantity > 0
    ensures BatchTotal(LineAllocation(B, order, line, stamp, now).batches, x)
         == BatchTotal(B.batches, x)
            - (if x == line.productId then Min(line.shippedQuantity, Available(B.batches, line.productId)) else 0)
  {
    var q, pid := line.shippedQuantity, line.productId;
    var cs := Candidates(B.batches, pid);
    var ctx := ShipContextOf(order, line, stamp, now);
    CandidatesFit(B.batches, pid);
    AllocationTaken(B.batches, B.movements, cs, q, ctx);
    CandidatesRemaining(B.batches, pid);
    AllocationTotal(B.batches, B.movements, cs, q, ctx, x);
  }

  /** A shipped line lowers its product's gap by its shortfall and keeps every
      other product's gap: the stock drops by the whole quantity while the
      batches give up only what they hold. */
  lemma ShipLineGap(B: Books, order: SaleOrder, line: ShipLine, stamp: string, now: int, x: string)
    requires IdsDistinct(B.batches)
    ensures Gap(ShipOne(B, order, line, stamp, now), x)
         == Gap(B, x) - (if x == line.productId then LineShortfall(B, line) else 0)
  {
    var a := LineAllocation(B, order, line, stamp, now);
    if Applies(B, line.productId, line.shippedQuantity) {
      ShipLineStock(B, order, line, a, stamp, now, x);
      ShipLineBatches(B, order, line, a, stamp, now);
      LineAllocationTotal(B, order, line, stamp, now, x);
    } else {
      ShipLineSkips(B, order, line, a, stamp, now);
    }
  }

  /** Shipping keeps batch ids (and so keeps them distinct). */
  lemma ShipLineKeepsIds(B: Books, order: SaleOrder, line: ShipLine, stamp: string, now: int)
    requires IdsDistinct(B.batches)
    ensures IdsDistinct(ShipOne(B, order, line, stamp, now).batches)
  {
    var q, pid := line.shippedQuantity, line.productId;
    var a := LineAllocation(B, order, line, stamp, now);
    if Applies(B, pid, q) {
      var cs := Candidates(B.batches, pid);
      AllocatePlanned(B.batches, B.movements, cs, q, ShipContextOf(order, line, stamp, now));
      ApplyPlanKeepsIds(B.batches, cs, Plan(cs, q));
      ShipLineBatches(B, order, line, a, stamp, now);
    } else {
      ShipLineSkips(B, order, line, a, stamp, now);
    }
  }

  /** The shortfalls of the lines for product `x`, each taken in the books the
      lines before it left. */
  function ShipShortfall(B: Books, order: SaleOrder, lines: seq<ShipLine>, stamp: string, now: int, x: string): (s: int)
    ensures s >= 0
    decreases |lines|
  {
    if |lines| == 0 then 0
    else
      var here := if lines[0].productId == x then LineShortfall(B, lines[0]) else 0;
      here + ShipShortfall(ShipOne(B, order, lines[0], stamp, now), order, lines[1..], stamp, now, x)
  }

  lemma {:induction false} ShipLinesGap(B: Books, order: SaleOrder, lines: seq<ShipLine>, stamp: string, now: int, x: string)
    requires IdsDistinct(B.batches)
    ensures Gap(ShipLines(B, order, lines, stamp, now), x) == Gap(B, x) - ShipShortfall(B, order, lines, stamp, now, x)
    ensures IdsDistinct(ShipLines(B, order, lines, stamp, now).batches)
    decreases |lines|
  {
    if |lines| > 0 {
      var B1 := ShipOne(B, order, lines[0], stamp, now);
      ShipLineGap(B, order, lines[0], stamp, now, x);
      ShipLineKeepsIds(B, order, lines[0], stamp, now);
      ShipLinesGap(B1, order, lines[1..], stamp, now, x);
    }
  }

  /** Shipping never raises a product's gap, and lowers it by exactly the
      quantity the batches could not cover; from balanced books, the books stay
      balanced exactly when no line falls short. */
  lemma ShipGap(L: State, orderId: string, lines: seq<ShipLine>, stamp: string, now: int)
    requires IdsDistinct(L.books.batches)
    ensures var r := Ship(L, orderId, lines, stamp, now);
      match FindSaleOrder(L.saleOrders, orderId)
      case None => r == L
      case Some(k) =>
        forall x :: Gap(r.books, x) == Gap(L.books, x) - ShipShortfall(L.books, L.saleOrders[k], lines, stamp, now, x)
    ensures forall x :: Gap(Ship(L, orderId, lines, stamp, now).books, x) <= Gap(L.books, x)
    ensures Balanced(L.books) && FindSaleOrder(L.saleOrders, orderId).Some? ==>
      (Balanced(Ship(L, orderId, lines, stamp, now).books) <==>
       forall x :: ShipShortfall(L.books, L.saleOrders[FindSaleOrder(L.saleOrders, orderId).value],
                                 lines, stamp, now, x) == 0)
  {
    match FindSaleOrder(L.saleOrders, orderId)
    case None =>
    case Some(k) =>
      var order := L.saleOrders[k];
      forall x ensures Gap(ShipLines(L.books, order, lines, stamp, now), x)
                    == Gap(L.books, x) - ShipShortfall(L.books, order, lines, stamp, now, x) {
        ShipLinesGap(L.books, order, lines, stamp, now, x);
      }
  }
}
