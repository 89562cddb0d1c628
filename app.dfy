/** The top-level component of src/App.tsx as an object: the entity arrays are
    its fields, and each handler replaces the arrays it sets. The receive and
    ship handlers run their request loops here and are proved to compute what
    the functions of `Ledger` describe. */
module App {
  import opened Seqs
  import opened Types
  import opened Catalog
  import opened OrderBook
  import opened Fifo
  import opened Ledger

  /** The hard-coded monthly amounts of the dashboard. */
  const MonthPurchaseAmount: int := 156800
  const MonthSaleAmount: int := 289600

  class Store {
    var products: seq<Product>
    var suppliers: seq<Supplier>
    var customers: seq<Customer>
    var purchaseOrders: seq<PurchaseOrder>
    var saleOrders: seq<SaleOrder>
    var inventoryRecords: seq<InventoryRecord>
    var inventoryBatches: seq<InventoryBatch>
    var batchMovements: seq<BatchMovement>

    /** The arrays the stock engine writes. */
    function Stock(): Books
      reads this`products, this`inventoryRecords, this`inventoryBatches, this`batchMovements
    {
      Books(products, inventoryRecords, inventoryBatches, batchMovements)
    }

    /** The whole state. */
    function Snapshot(): State
      reads this`products, this`inventoryRecords, this`inventoryBatches, this`batchMovements
      reads this`suppliers, this`customers, this`purchaseOrders, this`saleOrders
    {
      State(Stock(), suppliers, customers, purchaseOrders, saleOrders)
    }

    /** The store starts from the given arrays (the component's sample data). */
    constructor (init: State)
      ensures Snapshot() == init
    {
      products := init.books.products;
      inventoryRecords := init.books.records;
      inventoryBatches := init.books.batches;
      batchMovements := init.books.movements;
      suppliers := init.suppliers;
      customers := init.customers;
      purchaseOrders := init.purchaseOrders;
      saleOrders := init.saleOrders;
    }

    /** `dashboardStats`: the counts of the arrays, the low-stock products and
        the open orders, and the two fixed monthly amounts. */
    function Dashboard(): (d: DashboardStats)
      reads this
      ensures d.totalProducts == |products| && d.totalSuppliers == |suppliers| && d.totalCustomers == |customers|
      ensures d.lowStockProducts == Count(products, IsLowStock)
      ensures d.pendingPurchases == Count(purchaseOrders, IsPendingPurchase)
      ensures d.pendingSales == Count(saleOrders, IsPendingSale)
      ensures d.pendingPurchases == 0 <==> forall k :: 0 <= k < |purchaseOrders| ==> !IsPendingPurchase(purchaseOrders[k])
      ensures d.pendingSales == 0 <==> forall k :: 0 <= k < |saleOrders| ==> !IsPendingSale(saleOrders[k])
      ensures d.pendingPurchases <= |purchaseOrders| && d.pendingSales <= |saleOrders|
      ensures d.thisMonthPurchaseAmount == MonthPurchaseAmount && d.thisMonthSaleAmount == MonthSaleAmount
    {
      LowStockCountMatches(products);
      DashboardStats(|products|, |LowStockProducts(products)|, |suppliers|, |customers|,
                     PendingPurchaseCount(purchaseOrders), PendingSaleCount(saleOrders),
                     MonthPurchaseAmount, MonthSaleAmount)
    }

    // ------------------------------------------------------------ products

    method AddProduct(data: Product, stamp: string, now: int)
      modifies this`products
      ensures products == Catalog.AddProduct(old(products), data, stamp, now)
    {
      products := products + [data.(id := stamp, createTime := now, updateTime := now)];
    }

    method EditProduct(id: string, data: Product, now: int)
      modifies this`products
      ensures products == Catalog.EditProduct(old(products), id, data, now)
    {
      products := Catalog.EditProduct(products, id, data, now);
    }

    method DeleteProduct(id: string)
      modifies this`products
      ensures products == Catalog.DeleteProduct(old(products), id)
    {
      products := Catalog.DeleteProduct(products, id);
    }

    // ------------------------------------------- records, batches, movements

    method AddInventoryRecord(data: InventoryRecord, stamp: string, now: int)
      modifies this`products, this`inventoryRecords
      ensures Stock() == AddRecord(old(Stock()), data, stamp, now)
    {
      products := WithStock(products, data.productId, data.afterStock, now);
      inventoryRecords := [data.(id := stamp, createTime := now)] + inventoryRecords;
    }

    method AddInventoryBatch(data: InventoryBatch, stamp: string, now: int)
      modifies this`inventoryBatches
      ensures inventoryBatches == AddBatch(old(inventoryBatches), data, stamp, now)
    {
      inventoryBatches := inventoryBatches + [data.(id := stamp, createTime := now)];
    }

    method UpdateInventoryBatch(id: string, patch: BatchPatch)
      modifies this`inventoryBatches
      ensures inventoryBatches == UpdateBatch(old(inventoryBatches), id, patch)
    {
      inventoryBatches := UpdateBatch(inventoryBatches, id, patch);
    }

    method AddBatchMovement(data: BatchMovement, stamp: string, now: int)
      modifies this`batchMovements
      ensures batchMovements == AddMovement(old(batchMovements), data, stamp, now)
    {
      batchMovements := batchMovements + [data.(id := stamp, createTime := now)];
    }

    // -------------------------------------------------------------- orders

    method AddPurchaseOrder(data: PurchaseOrder, stamp: string, now: int)
      modifies this`purchaseOrders
      ensures purchaseOrders == OrderBook.AddPurchaseOrder(old(purchaseOrders), data, stamp, now)
    {
      purchaseOrders := purchaseOrders + [data.(id := stamp, createTime := now)];
    }

    method EditPurchaseOrder(id: string, data: PurchaseOrder)
      modifies this`purchaseOrders
      ensures purchaseOrders == OrderBook.EditPurchaseOrder(old(purchaseOrders), id, data)
    {
      purchaseOrders := OrderBook.EditPurchaseOrder(purchaseOrders, id, data);
    }

    method DeletePurchaseOrder(id: string)
      modifies this`purchaseOrders
      ensures purchaseOrders == OrderBook.DeletePurchaseOrder(old(purchaseOrders), id)
    {
      purchaseOrders := OrderBook.DeletePurchaseOrder(purchaseOrders, id);
    }

    method AddSaleOrder(data: SaleOrder, stamp: string, now: int)
      modifies this`saleOrders
      ensures saleOrders == OrderBook.AddSaleOrder(old(saleOrders), data, stamp, now)
    {
      saleOrders := saleOrders + [data.(id := stamp, createTime := now)];
    }

    method EditSaleOrder(id: string, data: SaleOrder)
      modifies this`saleOrders
      ensures saleOrders == OrderBook.EditSaleOrder(old(saleOrders), id, data)
    {
      saleOrders := OrderBook.EditSaleOrder(saleOrders, id, data);
    }

    method DeleteSaleOrder(id: string)
      modifies this`saleOrders
      ensures saleOrders == OrderBook.DeleteSaleOrder(old(saleOrders), id)
    {
      saleOrders := OrderBook.DeleteSaleOrder(saleOrders, id);
    }

    // ----------------------------------------------------------- receiving

    /** The body of the receive loop for one request line. */
    method ReceiveLine(order: PurchaseOrder, items: seq<PurchaseItem>, line: ReceiveLine, batchNo: string,
                       stamp: string, now: int)
      modifies this`products, this`inventoryBatches, this`inventoryRecords, this`batchMovements
      ensures Stock() == ReceiveLineStep(old(Stock()), order, items, line, batchNo, stamp, now)
    {
      if line.receivedQuantity > 0 {
        var k := FindProduct(products, line.productId);
        if k.Some? {
          var product := products[k.value];
          var newStock := product.stock + line.receivedQuantity;
          assert newStock == StockOf(products, line.productId) + line.receivedQuantity;
          products := WithStock(products, line.productId, newStock, now);
          inventoryBatches := inventoryBatches + [ReceiptBatch(order, items, line, product, batchNo, stamp, now)];
          inventoryRecords := [ReceiptRecord(order, line, product, batchNo, stamp, now)] + inventoryRecords;
          batchMovements := batchMovements + [ReceiptMovement(order, line, batchNo, stamp, now)];
        }
      }
    }

    /** The `items.forEach` of handleReceivePurchase: receive the request lines
        one after the other. */
    method ReceiveAll(order: PurchaseOrder, items: seq<PurchaseItem>, lines: seq<ReceiveLine>, clock: Clock,
                      randoms: seq<Draw>, stamp: string, now: int)
      requires |randoms| == |lines|
      modifies this`products, this`inventoryBatches, this`inventoryRecords, this`batchMovements
      ensures Stock() == ReceiveLines(old(Stock()), order, items, lines, BatchNumbers(clock, randoms), stamp, now)
    {
      ghost var batchNos := BatchNumbers(clock, randoms);
      ghost var target := ReceiveLines(Stock(), order, items, lines, batchNos, stamp, now);
      assert lines[0..] == lines && batchNos[0..] == batchNos;
      var i := 0;
      while i < |lines|
        invariant 0 <= i <= |lines|
        invariant ReceiveLines(Stock(), order, items, lines[i..], batchNos[i..], stamp, now) == target
      {
        var batchNo := ReceiptBatchNo(clock, randoms[i]);
        ReceiveLinesFrom(Stock(), order, items, lines, batchNos, stamp, now, i);
        ReceiveLine(order, items, lines[i], batchNo, stamp, now);
        i := i + 1;
      }
      assert lines[i..] == [] && batchNos[i..] == [];
    }

    /** handleReceivePurchase: nothing for an unknown order; otherwise receive it. */
    method ReceivePurchase(orderId: string, lines: seq<ReceiveLine>, clock: Clock, randoms: seq<Draw>,
                           stamp: string, now: int)
      requires |randoms| == |lines|
      modifies this`products, this`inventoryBatches, this`inventoryRecords, this`batchMovements, this`purchaseOrders
      ensures Snapshot() == Receive(old(Snapshot()), orderId, lines, BatchNumbers(clock, randoms), stamp, now)
    {
      ghost var before := Snapshot();
      var found := FindPurchaseOrder(purchaseOrders, orderId);
      if found.Some? {
        var order := purchaseOrders[found.value];
        ReceiveOrder(orderId, found.value, lines, clock, randoms, stamp, now);
        ReceiveFound(before, orderId, lines, BatchNumbers(clock, randoms), stamp, now, found.value, order,
                     ApplyReceipt(order.items, lines), Stock(), purchaseOrders);
      }
    }

    /** handleReceivePurchase for the order found at index `k`: the order records
        the receipt, then the lines are received against the order as it was and
        the item list with the receipt applied. */
    method ReceiveOrder(orderId: string, k: nat, lines: seq<ReceiveLine>, clock: Clock, randoms: seq<Draw>,
                        stamp: string, now: int)
      requires |randoms| == |lines| && FindPurchaseOrder(purchaseOrders, orderId) == Some(k)
      modifies this`products, this`inventoryBatches, this`inventoryRecords, this`batchMovements, this`purchaseOrders
      ensures var items := ApplyReceipt(old(purchaseOrders[k]).items, lines);
        purchaseOrders == RecordReceipt(old(purchaseOrders), orderId, items) &&
        Stock() == ReceiveLines(old(Stock()), old(purchaseOrders[k]), items, lines, BatchNumbers(clock, randoms), stamp, now)
    {
      var order := purchaseOrders[k];
      var items := ApplyReceipt(order.items, lines);
      purchaseOrders := RecordReceipt(purchaseOrders, orderId, items);
      ReceiveAll(order, items, lines, clock, randoms, stamp, now);
    }

    // ------------------------------------------------------------ shipping

    /** The FIFO loop of handleShipSale: walk the candidates oldest first, stop
        once nothing is needed, take `min(needed, remaining)` from each, update
        that batch and log an `out` movement. */
    method AllocateFifo(cands: seq<InventoryBatch>, need: int, ctx: ShipContext) returns (used: seq<BatchAllocation>)
      modifies this`inventoryBatches, this`batchMovements
      ensures var a := Allocate(old(inventoryBatches), old(batchMovements), cands, need, ctx);
        inventoryBatches == a.batches && batchMovements == a.movements && used == a.used
    {
      ghost var full := Allocate(inventoryBatches, batchMovements, cands, need, ctx);
      CompletesInitially(inventoryBatches, batchMovements, cands, need, ctx);
      assert cands[0..] == cands;
      var remaining := need;
      used := [];
      var i := 0;
      while i < |cands|
        invariant 0 <= i <= |cands|
        invariant Completes(inventoryBatches, batchMovements, cands[i..], remaining, ctx, used, full)
      {
        if remaining <= 0 {
          break;
        }
        var batch := cands[i];
        var take := Min(remaining, batch.remainingQuantity);
        assert cands[i..][0] == batch && cands[i..][1..] == cands[i + 1..];
        CompletesStep(inventoryBatches, batchMovements, cands[i..], remaining, ctx, used, full);
        used := used + [BatchAllocation(batch.id, batch.batchNo, take)];
        var newRemaining := batch.remainingQuantity - take;
        inventoryBatches := SetRemaining(inventoryBatches, batch.id, newRemaining);
        remaining := remaining - take;
        batchMovements := batchMovements + [OutMovement(batch, take, ctx)];
        i := i + 1;
      }
      CompletesFinally(inventoryBatches, batchMovements, cands[i..], remaining, ctx, used, full);
    }

    /** The body of the ship loop for one request line. */
    method ShipLine(order: SaleOrder, line: ShipLine, stamp: string, now: int)
      modifies this`products, this`inventoryBatches, this`inventoryRecords, this`batchMovements
      ensures Stock() == ShipOne(old(Stock()), order, line, stamp, now)
    {
      ghost var B := Books(products, inventoryRecords, inventoryBatches, batchMovements);
      ghost var a := LineAllocation(B, order, line, stamp, now);
      var k := FindProduct(products, line.productId);
      if line.shippedQuantity > 0 && k.Some? {
        var product := products[k.value];
        var cands := Candidates(inventoryBatches, line.productId);
        var used := AllocateFifo(cands, line.shippedQuantity, ShipContextOf(order, line, stamp, now));
        var newStock := product.stock - line.shippedQuantity;
        var ps := WithStock(products, line.productId, newStock, now);
        var rs := [ShipRecord(order, line, product, used, stamp, now)] + inventoryRecords;
        ShipOneApplied(B, order, line, stamp, now, k.value, product, a, newStock, ps, rs);
        products, inventoryRecords := ps, rs;
      } else {
        ShipLineSkips(B, order, line, a, stamp, now);
      }
    }

    /** The `items.forEach` of handleShipSale: ship the request lines one after
        the other. */
    method ShipAll(order: SaleOrder, lines: seq<ShipLine>, stamp: string, now: int)
      modifies this`products, this`inventoryBatches, this`inventoryRecords, this`batchMovements
      ensures Stock() == ShipLines(old(Stock()), order, lines, stamp, now)
    {
      ghost var target := ShipLines(Stock(), order, lines, stamp, now);
      assert lines[0..] == lines;
      var i := 0;
      while i < |lines|
        invariant 0 <= i <= |lines|
        invariant ShipLines(Stock(), order, lines[i..], stamp, now) == target
      {
        ShipLinesFrom(Stock(), order, lines, stamp, now, i);
        ShipLine(order, lines[i], stamp, now);
        i := i + 1;
      }
      assert lines[i..] == [];
    }

    /** handleShipSale: nothing for an unknown order; otherwise ship it. */
    method ShipSale(orderId: string, lines: seq<ShipLine>, stamp: string, now: int)
      modifies this`products, this`inventoryBatches, this`inventoryRecords, this`batchMovements, this`saleOrders
      ensures Snapshot() == Ship(old(Snapshot()), orderId, lines, stamp, now)
    {
      ghost var before := Snapshot();
      var found := FindSaleOrder(saleOrders, orderId);
      if found.Some? {
        var order := saleOrders[found.value];
        ShipOrder(orderId, found.value, lines, stamp, now);
        ShipFound(before, orderId, lines, stamp, now, found.value, order, Stock(), saleOrders);
      }
    }

    /** handleShipSale for the order found at index `k`: the order records the
        shipment, then the lines are shipped against the order as it was. */
    method ShipOrder(orderId: string, k: nat, lines: seq<ShipLine>, stamp: string, now: int)
      requires FindSaleOrder(saleOrders, orderId) == Some(k)
      modifies this`products, this`inventoryBatches, this`inventoryRecords, this`batchMovements, this`saleOrders
      ensures saleOrders == RecordShipment(old(saleOrders), orderId, ApplyShipment(old(saleOrders[k]).items, lines))
      ensures Stock() == ShipLines(old(Stock()), old(saleOrders[k]), lines, stamp, now)
    {
      var order := saleOrders[k];
      var items := ApplyShipment(order.items, lines);
      saleOrders := RecordShipment(saleOrders, orderId, items);
      ShipAll(order, lines, stamp, now);
    }
  }
}
