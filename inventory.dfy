/** The manual stock operation of src/components/InventoryManagement.tsx: the
    batch-number rule, the submit handler that writes a record (and, for a
    stock-in, a batch and a movement) through the store's handlers, and the
    helpers the form uses to offer orders, products and quantities. */
module Inventory {
  import opened Seqs
  import opened Strings
  import opened Types
  import opened Catalog
  import opened OrderBook
  import opened Fifo
  import opened Ledger
  import opened Numbering
  import opened App

  /** The state of the operation form (`recordData`); the quantity is the
      parsed number. */
  datatype RecordForm = RecordForm(
    productId: string,
    recordType: RecordType,
    quantity: int,
    reason: string,
    relatedOrderId: string,
    operatorName: string)

  /** The supplier and order fallbacks of a batch entered without an order. */
  const ManualId: string := "manual"
  const ManualName: string := "手动入库"

  // --------------------------------------------------------- offered orders

  predicate UnderReceived(i: PurchaseItem)
  {
    i.receivedQuantity < i.quantity
  }

  predicate UnderShipped(i: SaleItem)
  {
    i.shippedQuantity < i.quantity
  }

  predicate OpenPurchase(o: PurchaseOrder)
  {
    o.status == PurchaseStatus.Confirmed && exists j :: 0 <= j < |o.items| && UnderReceived(o.items[j])
  }

  predicate OpenSale(o: SaleOrder)
  {
    o.status == SaleStatus.Confirmed && exists j :: 0 <= j < |o.items| && UnderShipped(o.items[j])
  }

  /** `availablePurchaseOrders`: the confirmed orders with an item not yet fully
      received, in list order. */
  function AvailablePurchaseOrders(orders: seq<PurchaseOrder>): (r: seq<PurchaseOrder>)
    ensures forall k :: 0 <= k < |r| ==>
      r[k] in orders && r[k].status == PurchaseStatus.Confirmed &&
      exists j :: 0 <= j < |r[k].items| && r[k].items[j].receivedQuantity < r[k].items[j].quantity
    ensures forall k ::
              (0 <= k < |orders| && orders[k].status == PurchaseStatus.Confirmed &&
               exists j :: 0 <= j < |orders[k].items| && orders[k].items[j].receivedQuantity < orders[k].items[j].quantity)
              ==> orders[k] in r
    ensures Filtered(r, orders, OpenPurchase)
  {
    Filter(orders, OpenPurchase)
  }

  /** `availableSaleOrders`: the confirmed orders with an item not yet fully
      shipped, in list order. */
  function AvailableSaleOrders(orders: seq<SaleOrder>): (r: seq<SaleOrder>)
    ensures forall k :: 0 <= k < |r| ==>
      r[k] in orders && r[k].status == SaleStatus.Confirmed &&
      exists j :: 0 <= j < |r[k].items| && r[k].items[j].shippedQuantity < r[k].items[j].quantity
    ensures forall k ::
              (0 <= k < |orders| && orders[k].status == SaleStatus.Confirmed &&
               exists j :: 0 <= j < |orders[k].items| && orders[k].items[j].shippedQuantity < orders[k].items[j].quantity)
              ==> orders[k] in r
    ensures Filtered(r, orders, OpenSale)
  {
    Filter(orders, OpenSale)
  }

  // ------------------------------------------------------------ batch number

  /** `${product.code}-${dateStr}`. */
  function BatchPrefix(code: string, clock: Clock): string
  {
    code + "-" + DateStr(clock)
  }

  /** A batch of the product whose number contains the day's prefix. */
  function SameDay(productId: string, prefix: string): InventoryBatch -> bool
  {
    (b: InventoryBatch) => b.productId == productId && Contains(b.batchNo, prefix)
  }

  /** The product's batches whose number contains the day's prefix (`todayBatches`). */
  function SameDayBatches(batches: seq<InventoryBatch>, productId: string, prefix: string): seq<InventoryBatch>
  {
    Filter(batches, SameDay(productId, prefix))
  }

  /** `todayBatches.length` is the number of the day's batches of the product. */
  lemma SameDayCounted(batches: seq<InventoryBatch>, productId: string, prefix: string)
    ensures |SameDayBatches(batches, productId, prefix)| == Count(batches, SameDay(productId, prefix))
  {
    FilterCount(batches, SameDay(productId, prefix));
  }

  /** generateBatchNo: "" for an unknown product; otherwise the day's prefix, a
      dash, and one more than the number of that product's batches carrying the
      prefix, zero-padded to three digits. */
  function GenerateBatchNo(products: seq<Product>, batches: seq<InventoryBatch>, productId: string,
                           clock: Clock): (r: string)
    ensures r == "" <==> !HasProduct(products, productId)
    ensures HasProduct(products, productId) ==>
      var prefix := BatchPrefix(products[FindProduct(products, productId).value].code, clock);
      var n := Count(batches, SameDay(productId, prefix)) + 1;
      |r| >= |prefix| + 4 && r[..|prefix|] == prefix && r[|prefix|] == '-' &&
      AllDigits(r[|prefix| + 1..]) && DigitsValue(r[|prefix| + 1..]) == n &&
      (n < 1000 ==> |r| == |prefix| + 4)
  {
    if !HasProduct(products, productId) then ""
    else
      var k := FindProduct(products, productId).value;
      var prefix := BatchPrefix(products[k].code, clock);
      var r := Sequenced(prefix, Count(batches, SameDay(productId, prefix)) + 1);
      assert r[..|prefix|] == prefix && |r| >= 4;
      r
  }

  /** A batch of the product whose number starts with the prefix joins the
      day's batches. */
  lemma {:induction false} SameDayAppend(batches: seq<InventoryBatch>, b: InventoryBatch, productId: string,
                                         prefix: string)
    requires b.productId == productId && |prefix| <= |b.batchNo| && b.batchNo[..|prefix|] == prefix
    ensures |SameDayBatches(batches + [b], productId, prefix)| == |SameDayBatches(batches, productId, prefix)| + 1
    ensures Count(batches + [b], SameDay(productId, prefix)) == Count(batches, SameDay(productId, prefix)) + 1
  {
    var p := SameDay(productId, prefix);
    assert Contains(b.batchNo, prefix);
    FilterAppend(batches, [b], p);
    assert Filter([b], p) == [b];
    SameDayCounted(batches, productId, prefix);
    SameDayCounted(batches + [b], productId, prefix);
  }

  /** The per-day sequence: once a batch numbered by the rule is added for the
      product, the day's count grows by one, so the next number the rule gives
      differs from it. */
  lemma NextBatchNo(products: seq<Product>, batches: seq<InventoryBatch>, productId: string, clock: Clock,
                    b: InventoryBatch, k: nat)
    requires FindProduct(products, productId) == Some(k)
    requires b.productId == productId && b.batchNo == GenerateBatchNo(products, batches, productId, clock)
    ensures var prefix := BatchPrefix(products[k].code, clock);
      |SameDayBatches(batches + [b], productId, prefix)| == |SameDayBatches(batches, productId, prefix)| + 1
    ensures GenerateBatchNo(products, batches + [b], productId, clock) != b.batchNo
  {
    var prefix := BatchPrefix(products[k].code, clock);
    SameDayAppend(batches, b, productId, prefix);
    var next := GenerateBatchNo(products, batches + [b], productId, clock);
    assert DigitsValue(next[|prefix| + 1..]) != DigitsValue(b.batchNo[|prefix| + 1..]);
  }

  // ----------------------------------------------------------- submission

  /** The form passes validation: the product exists, and a stock-in or
      stock-out names its order. */
  predicate Accepted(products: seq<Product>, form: RecordForm)
  {
    HasProduct(products, form.productId) && (form.recordType == RecordType.Adjust || form.relatedOrderId != "")
  }

  /** `x || undefined` for a string. */
  function NonEmpty(s: string): (r: Option<string>)
    ensures r.None? <==> s == ""
    ensures r.Some? ==> r.value == s
  {
    if s == "" then None else Some(s)
  }

  /** `x || fallback` for a string. */
  function OrElse(s: string, fallback: string): (r: string)
    ensures s != "" ==> r == s
    ensures s == "" ==> r == fallback
  {
    if s == "" then fallback else s
  }

  /** The number of the order a stock-in or stock-out names, found in the
      purchase or the sale orders; "" when there is none. */
  function RelatedOrderNo(purchaseOrders: seq<PurchaseOrder>, saleOrders: seq<SaleOrder>, form: RecordForm): string
  {
    if form.recordType == RecordType.In && form.relatedOrderId != "" then
      match FindPurchaseOrder(purchaseOrders, form.relatedOrderId)
      case Some(k) => purchaseOrders[k].orderNo
      case None => ""
    else if form.recordType == RecordType.Out && form.relatedOrderId != "" then
      match FindSaleOrder(saleOrders, form.relatedOrderId)
      case Some(k) => saleOrders[k].orderNo
      case None => ""
    else ""
  }

  /** `supplierInfo`: the supplier of the purchase order a stock-in names. */
  function SupplierInfo(purchaseOrders: seq<PurchaseOrder>, form: RecordForm): Option<PurchaseOrder>
  {
    if form.recordType == RecordType.In && form.relatedOrderId != "" then
      match FindPurchaseOrder(purchaseOrders, form.relatedOrderId)
      case Some(k) => Some(purchaseOrders[k])
      case None => None
    else None
  }

  /** `afterStock`: the stock less the quantity for a stock-out, plus it otherwise. */
  function AfterStock(before: int, form: RecordForm): int
  {
    if form.recordType == RecordType.Out then before - form.quantity else before + form.quantity
  }

  /** `newRecord` (without id and creation time, which the store adds). */
  function NewRecord(p: Product, batchNo: string, orderNo: string, form: RecordForm): InventoryRecord
  {
    InventoryRecord(
      "", form.productId, p.name, form.recordType,
      if form.recordType == RecordType.Out then -form.quantity else form.quantity,
      p.stock, AfterStock(p.stock, form), form.reason, Some(batchNo),
      NonEmpty(form.relatedOrderId), NonEmpty(orderNo), OperatorId, form.operatorName, 0)
  }

  /** `newBatch` of a stock-in (without id and creation time). */
  function NewBatch(p: Product, batchNo: string, orderNo: string, supplier: Option<PurchaseOrder>,
                    form: RecordForm): InventoryBatch
  {
    InventoryBatch(
      "", batchNo, form.productId, p.name, form.quantity, form.quantity, p.purchasePrice,
      OrElse(if supplier.Some? then supplier.value.supplierId else "", ManualId),
      OrElse(if supplier.Some? then supplier.value.supplierName else "", ManualName),
      OrElse(form.relatedOrderId, ManualId), OrElse(orderNo, ManualName),
      None, None, BatchStatus.Active, 0)
  }

  /** `newMovement` of a stock-in (without id and creation time); its batch id
      is the `Date.now()` stamp. */
  function NewMovement(batchNo: string, orderNo: string, form: RecordForm, stamp: string): BatchMovement
  {
    BatchMovement(
      "", stamp, batchNo, form.productId, MovementType.In, form.quantity, form.quantity,
      OrElse(form.relatedOrderId, ManualId), OrElse(orderNo, ManualName), OrderType.Purchase, 0)
  }

  /** What handleSubmit does to the books: nothing when validation fails;
      otherwise the record through handleAddInventoryRecord and, for a
      stock-in, the batch and the movement through their handlers. Every part
      is computed from the state before the first handler runs; one stamp and
      one time serve every `Date.now()` and `new Date()`. */
  function Submission(B: Books, purchaseOrders: seq<PurchaseOrder>, saleOrders: seq<SaleOrder>,
                      form: RecordForm, clock: Clock, stamp: string, now: int): Books
  {
    if !Accepted(B.products, form) then B
    else
      Written(B, B.products[FindProduct(B.products, form.productId).value],
              RelatedOrderNo(purchaseOrders, saleOrders, form),
              GenerateBatchNo(B.products, B.batches, form.productId, clock),
              SupplierInfo(purchaseOrders, form), form, stamp, now)
  }

  /** The writes of an accepted submission, from its computed parts. */
  function Written(B: Books, p: Product, orderNo: string, batchNo: string, supplier: Option<PurchaseOrder>,
                   form: RecordForm, stamp: string, now: int): Books
  {
    var B1 := AddRecord(B, NewRecord(p, batchNo, orderNo, form), stamp, now);
    if form.recordType == RecordType.In then
      Books(B1.products, B1.records,
            AddBatch(B.batches, NewBatch(p, batchNo, orderNo, supplier, form), stamp, now),
            AddMovement(B.movements, NewMovement(batchNo, orderNo, form, stamp), stamp, now))
    else B1
  }

  /** handleSubmit through the store's handlers: validate, then write. */
  method Submit(store: Store, form: RecordForm, clock: Clock, stamp: string, now: int)
    modifies store`products, store`inventoryRecords, store`inventoryBatches, store`batchMovements
    ensures store.Stock() == Submission(old(store.Stock()), old(store.purchaseOrders), old(store.saleOrders), form, clock, stamp, now)
  {
    var k := FindProduct(store.products, form.productId);
    if k.None? {
      return;
    }
    if form.recordType == RecordType.In && form.relatedOrderId == "" {
      return;
    }
    if form.recordType == RecordType.Out && form.relatedOrderId == "" {
      return;
    }
    SubmitAccepted(store, form, k.value, clock, stamp, now);
  }

  /** handleSubmit once validation has passed for the product found at index
      `k`: the record, then for a stock-in the batch and the movement. */
  method SubmitAccepted(store: Store, form: RecordForm, k: nat, clock: Clock, stamp: string, now: int)
    requires FindProduct(store.products, form.productId) == Some(k)
    requires form.recordType == RecordType.Adjust || form.relatedOrderId != ""
    modifies store`products, store`inventoryRecords, store`inventoryBatches, store`batchMovements
    ensures store.Stock() == Submission(old(store.Stock()), old(store.purchaseOrders), old(store.saleOrders), form, clock, stamp, now)
  {
    ghost var before := store.Stock();
    var p := store.products[k];
    var orderNo := RelatedOrderNo(store.purchaseOrders, store.saleOrders, form);
    var supplier := SupplierInfo(store.purchaseOrders, form);
    var batchNo := GenerateBatchNo(store.products, store.inventoryBatches, form.productId, clock);
    assert Submission(before, store.purchaseOrders, store.saleOrders, form, clock, stamp, now)
        == Written(before, p, orderNo, batchNo, supplier, form, stamp, now);
    Write(store, p, orderNo, batchNo, supplier, form, stamp, now);
  }

  /** The handler calls of an accepted submission: the record, then for a
      stock-in the batch and the movement. */
  method Write(store: Store, p: Product, orderNo: string, batchNo: string, supplier: Option<PurchaseOrder>,
               form: RecordForm, stamp: string, now: int)
    modifies store`products, store`inventoryRecords, store`inventoryBatches, store`batchMovements
    ensures store.Stock() == Written(old(store.Stock()), p, orderNo, batchNo, supplier, form, stamp, now)
  {
    ghost var before := store.Stock();
    var record := NewRecord(p, batchNo, orderNo, form);
    store.AddInventoryRecord(record, stamp, now);
    ghost var B1 := AddRecord(before, record, stamp, now);
    assert store.Stock() == B1;
    if form.recordType == RecordType.In {
      var batch := NewBatch(p, batchNo, orderNo, supplier, form);
      var movement := NewMovement(batchNo, orderNo, form, stamp);
      assert store.inventoryBatches == before.batches && store.batchMovements == before.movements;
      ghost var prods := store.products;
      store.AddInventoryBatch(batch, stamp, now);
      assert store.products == prods;
      store.AddBatchMovement(movement, stamp, now);
      assert store.products == prods;
      assert store.inventoryBatches == AddBatch(before.batches, batch, stamp, now);
      assert store.batchMovements == AddMovement(before.movements, movement, stamp, now);
      assert store.products == B1.products && store.inventoryRecords == B1.records;
    }
  }

  /** A submission that fails validation (unknown product, or a stock-in or
      stock-out without an order) changes nothing. */
  lemma SubmitRejected(B: Books, purchaseOrders: seq<PurchaseOrder>, saleOrders: seq<SaleOrder>,
                       form: RecordForm, clock: Clock, stamp: string, now: int)
    requires !HasProduct(B.products, form.productId) ||
             (form.recordType != RecordType.Adjust && form.relatedOrderId == "")
    ensures Submission(B, purchaseOrders, saleOrders, form, clock, stamp, now) == B
  {
  }

  /** An accepted submission puts one record first whose signed quantity is the
      stock change: `−q` for a stock-out, `+q` otherwise, taken from the found
      product's stock. */
  lemma SubmitRecord(B: Books, purchaseOrders: seq<PurchaseOrder>, saleOrders: seq<SaleOrder>,
                     form: RecordForm, clock: Clock, stamp: string, now: int)
    requires Accepted(B.products, form)
    ensures var r := Submission(B, purchaseOrders, saleOrders, form, clock, stamp, now);
      |r.records| == |B.records| + 1 && r.records[1..] == B.records &&
      var rec := r.records[0];
      rec.id == stamp && rec.createTime == now && rec.productId == form.productId &&
      rec.recordType == form.recordType &&
      rec.beforeStock == StockOf(B.products, form.productId) &&
      rec.quantity == (if form.recordType == RecordType.Out then -form.quantity else form.quantity) &&
      rec.afterStock - rec.beforeStock == rec.quantity &&
      rec.batchNo == Some(GenerateBatchNo(B.products, B.batches, form.productId, clock)) &&
      (rec.relatedOrderId.None? <==> form.relatedOrderId == "") &&
      rec.operatorId == OperatorId && rec.operatorName == form.operatorName
  {
  }

  /** An accepted submission sets the product's stock to the record's
      `afterStock` and moves no other product's stock. */
  lemma SubmitStock(B: Books, purchaseOrders: seq<PurchaseOrder>, saleOrders: seq<SaleOrder>,
                    form: RecordForm, clock: Clock, stamp: string, now: int, x: string)
    requires Accepted(B.products, form)
    ensures StockOf(Submission(B, purchaseOrders, saleOrders, form, clock, stamp, now).products, x)
         == if x == form.productId then AfterStock(StockOf(B.products, x), form) else StockOf(B.products, x)
  {
    var p := B.products[FindProduct(B.products, form.productId).value];
    var orderNo := RelatedOrderNo(purchaseOrders, saleOrders, form);
    var batchNo := GenerateBatchNo(B.products, B.batches, form.productId, clock);
    AddRecordStock(B, NewRecord(p, batchNo, orderNo, form), stamp, now, x);
  }

  /** Only an accepted stock-in creates a batch and a movement: the batch holds
      the whole quantity, is active and costs the product's purchase price, with
      the manual fallbacks when no order is found; the movement moves the whole
      quantity into it. Stock-outs and adjustments leave batches and movements
      alone. */
  lemma SubmitBatch(B: Books, purchaseOrders: seq<PurchaseOrder>, saleOrders: seq<SaleOrder>,
                    form: RecordForm, clock: Clock, stamp: string, now: int)
    ensures var r := Submission(B, purchaseOrders, saleOrders, form, clock, stamp, now);
      if Accepted(B.products, form) && form.recordType == RecordType.In then
        |r.batches| == |B.batches| + 1 && r.batches[..|B.batches|] == B.batches &&
        |r.movements| == |B.movements| + 1 && r.movements[..|B.movements|] == B.movements &&
        var b := r.batches[|B.batches|];
        var m := r.movements[|B.movements|];
        b.id == stamp && b.productId == form.productId &&
        b.quantity == form.quantity && b.remainingQuantity == form.quantity && b.status == BatchStatus.Active &&
        b.purchasePrice == StockProduct(B.products, form.productId).purchasePrice &&
        b.batchNo == GenerateBatchNo(B.products, B.batches, form.productId, clock) &&
        b.purchaseOrderId == form.relatedOrderId &&
        (FindPurchaseOrder(purchaseOrders, form.relatedOrderId).None? ==>
           b.supplierId == ManualId && b.supplierName == ManualName && b.purchaseOrderNo == ManualName) &&
        m.movementType == MovementType.In && m.batchId == stamp && m.batchNo == b.batchNo &&
        m.quantity == form.quantity && m.remainingQuantity == form.quantity &&
        m.relatedOrderType == OrderType.Purchase
      else r.batches == B.batches && r.movements == B.movements
  {
  }

  /** The found product (for contracts that need its fields). */
  function StockProduct(products: seq<Product>, id: string): (p: Product)
    requires HasProduct(products, id)
    ensures p in products && p.id == id
  {
    products[FindProduct(products, id).value]
  }

  /** A manual stock-in keeps `stock − Σ remainingQuantity` of every product;
      a stock-out or an adjustment moves the product's stock by the record's
      quantity and drains no batch, so it shifts that product's gap by the same
      amount. */
  lemma SubmitGap(B: Books, purchaseOrders: seq<PurchaseOrder>, saleOrders: seq<SaleOrder>,
                  form: RecordForm, clock: Clock, stamp: string, now: int, x: string)
    ensures Gap(Submission(B, purchaseOrders, saleOrders, form, clock, stamp, now), x)
         == Gap(B, x) + if Accepted(B.products, form) && x == form.productId && form.recordType != RecordType.In
                        then (if form.recordType == RecordType.Out then -form.quantity else form.quantity)
                        else 0
  {
    var r := Submission(B, purchaseOrders, saleOrders, form, clock, stamp, now);
    if Accepted(B.products, form) {
      SubmitStock(B, purchaseOrders, saleOrders, form, clock, stamp, now, x);
      SubmitBatch(B, purchaseOrders, saleOrders, form, clock, stamp, now);
      if form.recordType == RecordType.In {
        var b := r.batches[|B.batches|];
        assert r.batches == B.batches + [b];
        BatchTotalAppend(B.batches, [b], x);
        assert BatchTotal([b], x) == if x == form.productId then form.quantity else 0;
      }
    }
  }

  // ------------------------------------------------- quantities and products

  /** getAvailableQuantityForIn: what is still to be received of the first
      item for the product on the named purchase order; 0 when no order or
      product is chosen, or either is not found. */
  function AvailableForIn(purchaseOrders: seq<PurchaseOrder>, form: RecordForm): (r: int)
    ensures (form.relatedOrderId == "" || form.productId == "" ||
             FindPurchaseOrder(purchaseOrders, form.relatedOrderId).None?) ==> r == 0
    ensures form.relatedOrderId != "" && form.productId != "" &&
            FindPurchaseOrder(purchaseOrders, form.relatedOrderId).Some? ==>
      var items := purchaseOrders[FindPurchaseOrder(purchaseOrders, form.relatedOrderId).value].items;
      ((forall i :: 0 <= i < |items| ==> items[i].productId != form.productId) ==> r == 0) &&
      forall i :: (0 <= i < |items| && items[i].productId == form.productId &&
                   forall j :: 0 <= j < i ==> items[j].productId != form.productId) ==>
        r == items[i].quantity - items[i].receivedQuantity
  {
    if form.relatedOrderId == "" || form.productId == "" then 0
    else match FindPurchaseOrder(purchaseOrders, form.relatedOrderId)
      case None => 0
      case Some(k) => OutstandingReceipt(purchaseOrders[k].items, form.productId)
  }

  /** `item.quantity - item.receivedQuantity` of the first item of the
      product, 0 without one. */
  function OutstandingReceipt(items: seq<PurchaseItem>, pid: string): int
  {
    match Find(items, (i: PurchaseItem) => i.productId == pid)
    case None => 0
    case Some(i) => items[i].quantity - items[i].receivedQuantity
  }

  /** getAvailableQuantityForOut: what is still to be shipped of the first item
      for the product on the named sale order; 0 when no order or product is
      chosen, or either is not found. */
  function AvailableForOut(saleOrders: seq<SaleOrder>, form: RecordForm): (r: int)
    ensures (form.relatedOrderId == "" || form.productId == "" ||
             FindSaleOrder(saleOrders, form.relatedOrderId).None?) ==> r == 0
    ensures form.relatedOrderId != "" && form.productId != "" &&
            FindSaleOrder(saleOrders, form.relatedOrderId).Some? ==>
      var items := saleOrders[FindSaleOrder(saleOrders, form.relatedOrderId).value].items;
      ((forall i :: 0 <= i < |items| ==> items[i].productId != form.productId) ==> r == 0) &&
      forall i :: (0 <= i < |items| && items[i].productId == form.productId &&
                   forall j :: 0 <= j < i ==> items[j].productId != form.productId) ==>
        r == items[i].quantity - items[i].shippedQuantity
  {
    if form.relatedOrderId == "" || form.productId == "" then 0
    else match FindSaleOrder(saleOrders, form.relatedOrderId)
      case None => 0
      case Some(k) => OutstandingShipment(saleOrders[k].items, form.productId)
  }

  /** `item.quantity - item.shippedQuantity` of the first item of the
      product, 0 without one. */
  function OutstandingShipment(items: seq<SaleItem>, pid: string): int
  {
    match Find(items, (i: SaleItem) => i.productId == pid)
    case None => 0
    case Some(i) => items[i].quantity - items[i].shippedQuantity
  }

  /** Receiving against the order, as handleReceivePurchase records it, lowers
      what the form offers for the product by exactly what the request brings
      for it. */
  lemma AvailableAfterReceipt(purchaseOrders: seq<PurchaseOrder>, form: RecordForm, lines: seq<ReceiveLine>)
    requires form.relatedOrderId != "" && form.productId != ""
    requires FindPurchaseOrder(purchaseOrders, form.relatedOrderId).Some?
    ensures var k := FindPurchaseOrder(purchaseOrders, form.relatedOrderId).value;
      var after := RecordReceipt(purchaseOrders, form.relatedOrderId, ApplyReceipt(purchaseOrders[k].items, lines));
      HasItemFor(purchaseOrders[k].items, form.productId) ==>
        AvailableForIn(after, form) == AvailableForIn(purchaseOrders, form) - ReceiptFor(lines, form.productId)
  {
    var id, pid := form.relatedOrderId, form.productId;
    var k := FindPurchaseOrder(purchaseOrders, id).value;
    var items := ApplyReceipt(purchaseOrders[k].items, lines);
    RecordedReceiptFound(purchaseOrders, id, items, k);
    if HasItemFor(purchaseOrders[k].items, pid) {
      OutstandingAfterReceipt(purchaseOrders[k].items, lines, pid);
    }
  }

  lemma RecordedReceiptFound(orders: seq<PurchaseOrder>, id: string, items: seq<PurchaseItem>, k: nat)
    requires FindPurchaseOrder(orders, id) == Some(k)
    ensures FindPurchaseOrder(RecordReceipt(orders, id, items), id) == Some(k)
    ensures RecordReceipt(orders, id, items)[k].items == items
  {
    var after := RecordReceipt(orders, id, items);
    FindAgrees(orders, after, (o: PurchaseOrder) => o.id == id, (o: PurchaseOrder) => o.id == id);
  }

  lemma OutstandingAfterReceipt(items: seq<PurchaseItem>, lines: seq<ReceiveLine>, pid: string)
    requires HasItemFor(items, pid)
    ensures OutstandingReceipt(ApplyReceipt(items, lines), pid) == OutstandingReceipt(items, pid) - ReceiptFor(lines, pid)
  {
    var r := ApplyReceipt(items, lines);
    FindAgrees(items, r, (i: PurchaseItem) => i.productId == pid, (i: PurchaseItem) => i.productId == pid);
  }

  /** Shipping against the order, as handleShipSale records it, lowers what the
      form offers for the product by exactly what the request takes of it. */
  lemma AvailableAfterShipment(saleOrders: seq<SaleOrder>, form: RecordForm, lines: seq<ShipLine>)
    requires form.relatedOrderId != "" && form.productId != ""
    requires FindSaleOrder(saleOrders, form.relatedOrderId).Some?
    ensures var k := FindSaleOrder(saleOrders, form.relatedOrderId).value;
      var after := RecordShipment(saleOrders, form.relatedOrderId, ApplyShipment(saleOrders[k].items, lines));
      HasSaleItemFor(saleOrders[k].items, form.productId) ==>
        AvailableForOut(after, form) == AvailableForOut(saleOrders, form) - ShipmentFor(lines, form.productId)
  {
    var id, pid := form.relatedOrderId, form.productId;
    var k := FindSaleOrder(saleOrders, id).value;
    var items := ApplyShipment(saleOrders[k].items, lines);
    RecordedShipmentFound(saleOrders, id, items, k);
    if HasSaleItemFor(saleOrders[k].items, pid) {
      OutstandingAfterShipment(saleOrders[k].items, lines, pid);
    }
  }

  lemma RecordedShipmentFound(orders: seq<SaleOrder>, id: string, items: seq<SaleItem>, k: nat)
    requires FindSaleOrder(orders, id) == Some(k)
    ensures FindSaleOrder(RecordShipment(orders, id, items), id) == Some(k)
    ensures RecordShipment(orders, id, items)[k].items == items
  {
    var after := RecordShipment(orders, id, items);
    FindAgrees(orders, after, (o: SaleOrder) => o.id == id, (o: SaleOrder) => o.id == id);
  }

  lemma OutstandingAfterShipment(items: seq<SaleItem>, lines: seq<ShipLine>, pid: string)
    requires HasSaleItemFor(items, pid)
    ensures OutstandingShipment(ApplyShipment(items, lines), pid) == OutstandingShipment(items, pid) - ShipmentFor(lines, pid)
  {
    var r := ApplyShipment(items, lines);
    FindAgrees(items, r, (i: SaleItem) => i.productId == pid, (i: SaleItem) => i.productId == pid);
  }

  predicate HasItemFor(items: seq<PurchaseItem>, pid: string)
  {
    exists i :: 0 <= i < |items| && items[i].productId == pid
  }

  predicate HasSaleItemFor(items: seq<SaleItem>, pid: string)
  {
    exists i :: 0 <= i < |items| && items[i].productId == pid
  }

  /** getOrderProducts for a stock-in: the items of the named purchase order
      not yet fully received, in order; [] when no order is chosen or found. */
  function OrderProductsForIn(purchaseOrders: seq<PurchaseOrder>, form: RecordForm): (r: seq<PurchaseItem>)
    ensures (form.recordType != RecordType.In || form.relatedOrderId == "" ||
             FindPurchaseOrder(purchaseOrders, form.relatedOrderId).None?) ==> r == []
    ensures forall i :: 0 <= i < |r| ==> r[i].receivedQuantity < r[i].quantity
    ensures form.recordType == RecordType.In && form.relatedOrderId != "" &&
            FindPurchaseOrder(purchaseOrders, form.relatedOrderId).Some? ==>
      var items := purchaseOrders[FindPurchaseOrder(purchaseOrders, form.relatedOrderId).value].items;
      (forall i :: 0 <= i < |r| ==> r[i] in items) &&
      (forall i :: 0 <= i < |items| && items[i].receivedQuantity < items[i].quantity ==> items[i] in r) &&
      Filtered(r, items, UnderReceived)
  {
    if form.relatedOrderId == "" || form.recordType != RecordType.In then []
    else match FindPurchaseOrder(purchaseOrders, form.relatedOrderId)
      case Some(k) => Filter(purchaseOrders[k].items, UnderReceived)
      case None => []
  }

  /** getOrderProducts for a stock-out: the items of the named sale order not
      yet fully shipped, in order; [] when no order is chosen or found. An
      adjustment is offered no products (both lists are empty). */
  function OrderProductsForOut(saleOrders: seq<SaleOrder>, form: RecordForm): (r: seq<SaleItem>)
    ensures (form.recordType != RecordType.Out || form.relatedOrderId == "" ||
             FindSaleOrder(saleOrders, form.relatedOrderId).None?) ==> r == []
    ensures forall i :: 0 <= i < |r| ==> r[i].shippedQuantity < r[i].quantity
    ensures form.recordType == RecordType.Out && form.relatedOrderId != "" &&
            FindSaleOrder(saleOrders, form.relatedOrderId).Some? ==>
      var items := saleOrders[FindSaleOrder(saleOrders, form.relatedOrderId).value].items;
      (forall i :: 0 <= i < |r| ==> r[i] in items) &&
      (forall i :: 0 <= i < |items| && items[i].shippedQuantity < items[i].quantity ==> items[i] in r) &&
      Filtered(r, items, UnderShipped)
  {
    if form.relatedOrderId == "" || form.recordType != RecordType.Out then []
    else match FindSaleOrder(saleOrders, form.relatedOrderId)
      case Some(k) => Filter(saleOrders[k].items, UnderShipped)
      case None => []
  }

  /** A positive offered quantity means the first item for the product is
      among the offered products. */
  lemma OfferedWhenAvailable(purchaseOrders: seq<PurchaseOrder>, form: RecordForm)
    requires form.recordType == RecordType.In && AvailableForIn(purchaseOrders, form) > 0
    ensures var offered := OrderProductsForIn(purchaseOrders, form);
      exists i :: 0 <= i < |offered| && offered[i].productId == form.productId
  {
    var k := FindPurchaseOrder(purchaseOrders, form.relatedOrderId).value;
    var items := purchaseOrders[k].items;
    var i := Find(items, (i: PurchaseItem) => i.productId == form.productId).value;
    assert items[i] in OrderProductsForIn(purchaseOrders, form);
  }
}
