# Inventory and trading ledger — a Dafny model

This project models the stock engine of a small inventory, purchasing and
sales application written in React and TypeScript. The application keeps:

- products with a stock figure;
- inventory records (`in`, `out`, `adjust`), a log of every stock change;
- inventory batches, one per receipt, each with a remaining quantity and an
  `active`/`exhausted` status;
- batch movements, a log of what entered or left each batch;
- purchase orders and sale orders, whose items carry received or shipped
  quantities.

The model covers the following:

- **Receiving** against a purchase order (`handleReceivePurchase`). Every
  request line for a known product with a positive quantity:
  - raises the product's stock;
  - creates a batch with a date-based batch number;
  - writes an `in` record and an `in` movement.

  The order then records the receipt, and its status becomes `received` once
  every item is complete.
- **Shipping** against a sale order (`handleShipSale`). Every line:
  - lowers the product's stock by the whole quantity;
  - draws from the product's active, non-empty batches oldest first (FIFO),
    taking `min(still needed, remaining)` from each;
  - marks a batch `exhausted` at zero;
  - logs one `out` movement per batch it drew from, and one `out` record that
    lists the batch numbers.

  The order becomes `completed` once every item is fully shipped, and
  `shipped` otherwise.
- **Manual stock operation**, the record form of the inventory screen. It
  covers the per-product, per-day batch-number sequence and the form's
  validation. The record sets the stock to `before ± quantity`; a stock-in
  also writes a batch and a movement. The form offers order items with their
  outstanding quantities.
- **The purchase and sale order forms.** These build the items, the total and
  the order number, reset the received or shipped progress when an order is
  edited, fill in default receive or ship lines, and split the orders into
  the status tabs.
- **The report figures:**
  - the inventory value;
  - the normal-stock count;
  - the top five products by shipped value;
  - the top five customers by shipped amount.

The entities of `src/types.ts` are datatypes in `types.dfy`. The top-level
component is a class, `App.Store`, with one `seq` field per entity array. Its
handlers are methods that replace the arrays they set. The receive loop, the
ship loop and the FIFO loop are `while` loops, each proved against a function
in `Ledger` or `Fifo`. Those functions carry the properties:

- **Gap.** Receiving keeps every product's *gap* (its stock minus what its
  batches still hold). Shipping lowers the gap by exactly the quantity the
  batches could not cover, so balanced books stay balanced exactly when no
  line falls short.
- **FIFO allocation.** It takes `min(quantity, available)` in total, draws
  from candidates in ascending creation time (stable for ties), and drains
  each batch it touches by its take. It logs one movement per take, in order.
  The draining needs distinct batch ids. With two batches of one id, each
  write by id reaches both twins, and the later write wins (see Findings).
- **Order progress.** The received or shipped amount rises by exactly the
  value received or shipped. Applying the same receipt twice adds it twice.
- **Report tallies.** Each equals an independent per-product or per-customer
  sum over all sale orders.

Files:

- `seqs.dfy` holds generic list operations: `find`, `filter`, a stable sort
  and `slice`.
- `strings.dfy` holds number formatting and `padStart`.
- `numbering.dfy` builds the date-stamped numbers.
- `catalog.dfy` holds the product list.
- `orderbook.dfy` holds the order lists and what a receipt or shipment does
  to an order.
- `fifo.dfy` holds FIFO allocation.
- `engine.dfy` (module `Ledger`) holds receiving and shipping on the whole
  state.
- `app.dfy` holds the store class.
- `batching.dfy` shows what the receive handler does to the stock when every
  line maps the product list captured at the start.
- `inventory.dfy`, `orderforms.dfy`, `purchase.dfy`, `sales.dfy` and
  `reports.dfy` model the screens.

## Model

| member | source | states |
|---|---|---|
| Seqs.Find | src/App.tsx:451 | the index of the first element satisfying the predicate; none exactly when no element satisfies it |
| Seqs.Filter | src/App.tsx:385 | `Filtered`: the result is a subsequence of the input (input order kept) holding every copy of each satisfying element and none of the others |
| Seqs.FilteredUnique | src/App.tsx:385 | `Filtered` determines the list: any subsequence of the input that keeps every copy of each satisfying element and none of the others is `Filter`'s result |
| Seqs.FilterCount | src/App.tsx:357-361 | the filtered list's length is the number of input elements that satisfy the predicate |
| Seqs.SortBy | src/App.tsx:619 | a permutation of the input in ascending key order |
| Seqs.SortByStable | src/App.tsx:619 | elements with equal keys keep their input order, as `Array.prototype.sort` does |
| Seqs.Take | src/components/ReportsAnalysis.tsx:121 | the first `min(n, length)` elements, in order |
| Strings.NatToString | src/App.tsx:498 | a non-empty string of decimal digits |
| Strings.NatToStringRoundTrip | src/App.tsx:498 | the digits of `n.toString()` denote `n` |
| Strings.PadStart | src/App.tsx:494 | length `max(width, length)`, the string at the end, the fill character in front |
| Strings.ZeroPadded | src/App.tsx:494-497 | `String(n).padStart(w, '0')` is a digit string of at least `w` characters denoting `n`, exactly `w` when `n < 10^w` |
| Strings.TwoDigitsPadded | src/App.tsx:494-497 | below 100 the padded form is exactly the two digits |
| Strings.NatToStringLength | src/App.tsx:494-497 | a number below `10^w` has at most `w` digits |
| Strings.LeadingZerosValue | src/App.tsx:494-497 | leading zeros do not change the value a digit string denotes |
| Numbering.DateStr | src/components/InventoryManagement.tsx:87-91 | all digits, four longer than the year |
| Numbering.DateStrPadded | src/components/InventoryManagement.tsx:87-91 | the year followed by month and day, each padded to two digits |
| Numbering.Sequenced | src/components/InventoryManagement.tsx:99-100 | the prefix, a dash, then digits denoting the sequence number; exactly three digits below 1000 |
| Catalog.FindProduct | src/App.tsx:482 | the first product with the id; none exactly when no product has it |
| Catalog.WithStock | src/App.tsx:485-489 | same length; products with the id take the stock and update time, every other product is unchanged |
| Catalog.StockOfWithStock | src/App.tsx:485-489 | the stock read for the id becomes the new one when the product exists; every other id reads as before |
| Catalog.WithStockOnlyThatId | src/App.tsx:485-489 | for all ids at once: only the written id's reading changes |
| Catalog.StockOfRaised | src/App.tsx:484-489 | raising a known product by `q` raises its reading by `q` and no other reading; the set of known ids is unchanged |
| Catalog.StockOfLowered | src/App.tsx:666-671 | lowering a known product by `q` lowers its reading by `q` and no other reading |
| Catalog.FindSameIds | src/App.tsx:482 | lookup by id depends only on the ids |
| Catalog.AddProduct | src/App.tsx:366-374 | appends one product carrying the form's data, the new id and both times; earlier products unchanged |
| Catalog.EditProduct | src/App.tsx:376-382 | products with the id take the form's data and the update time but keep id and creation time; others unchanged |
| Catalog.DeleteProduct | src/App.tsx:384-386 | the products with other ids remain, in their order and with every copy; none with the id |
| Catalog.LowStockProducts | src/App.tsx:357 | the products whose stock is at or below their minimum, in list order and with every copy, and no others |
| Catalog.LowStockCountMatches | src/App.tsx:357 | the length of the low-stock list is the number of list entries that are low on stock |
| Catalog.PendingPurchaseCount | src/App.tsx:360 | exactly the number of orders that are pending or confirmed; so at most the number of orders, and zero exactly when none is open |
| Catalog.PendingSaleCount | src/App.tsx:361 | exactly the number of orders that are pending or confirmed; so at most the number of orders, and zero exactly when none is open |
| OrderBook.RequestedReceipt | src/App.tsx:456 | the quantity of the first request line for the product; none exactly when no line names it |
| OrderBook.ApplyReceipt | src/App.tsx:455-464 | every item adds the first matching line's quantity (0 without one); nothing else changes |
| OrderBook.ReceiptRaisesReceivedValue | src/App.tsx:466-468 | the received amount after a receipt is the one before plus the value received |
| OrderBook.ReceiptTwiceAddsTwice | src/App.tsx:455-464 | receiving the same request twice adds its quantity twice |
| OrderBook.AllReceived | src/App.tsx:470 | true exactly when every item's received quantity reaches its ordered quantity |
| OrderBook.ReceiptStatus | src/App.tsx:470-471 | `received` exactly when every item is complete, `confirmed` otherwise |
| OrderBook.RecordReceipt | src/App.tsx:473-477 | orders with the id take the items, their received value and their status; other orders unchanged |
| OrderBook.RequestedShipment | src/App.tsx:584 | the quantity of the first ship line for the product; none exactly when no line names it |
| OrderBook.ApplyShipment | src/App.tsx:583-592 | every item adds the first matching line's quantity (0 without one); nothing else changes |
| OrderBook.ShipmentRaisesShippedValue | src/App.tsx:594-596 | the shipped amount after a shipment is the one before plus the value shipped |
| OrderBook.AllShipped | src/App.tsx:598 | true exactly when every item's shipped quantity reaches its ordered quantity |
| OrderBook.ShipmentStatus | src/App.tsx:598-599 | `completed` exactly when every item is complete, `shipped` otherwise |
| OrderBook.RecordShipment | src/App.tsx:601-605 | orders with the id take the items, their shipped value and their status; other orders unchanged |
| OrderBook.AddPurchaseOrder | src/App.tsx:429-436 | appends the order with the new id and creation time; earlier orders unchanged |
| OrderBook.EditPurchaseOrder | src/App.tsx:438-444 | orders with the id take the data, keeping id and creation time; others unchanged |
| OrderBook.DeletePurchaseOrder | src/App.tsx:446-448 | the orders with other ids remain, in their order and with every copy; none with the id |
| OrderBook.AddSaleOrder | src/App.tsx:557-564 | appends the order with the new id and creation time; earlier orders unchanged |
| OrderBook.EditSaleOrder | src/App.tsx:566-572 | orders with the id take the data, keeping id and creation time; others unchanged |
| OrderBook.DeleteSaleOrder | src/App.tsx:574-576 | the orders with other ids remain, in their order and with every copy; none with the id |
| OrderBook.FindPurchaseOrder | src/App.tsx:451 | the index of the first order with the id; none exactly when no order has it |
| OrderBook.FindSaleOrder | src/App.tsx:579 | the index of the first order with the id; none exactly when no order has it |
| Fifo.Candidates | src/App.tsx:613-619 | exactly the product's active batches with something left, ascending by creation time, a permutation of the filtered list |
| Fifo.CandidatesStable | src/App.tsx:619 | batches created at the same time keep their list order |
| Fifo.CandidatesIdsDistinct | src/App.tsx:613-619 | distinct batch ids stay distinct among the candidates |
| Fifo.CandidatesRemaining | src/App.tsx:613-619 | the candidates hold what the drawable batches hold |
| Fifo.RemainingPositive | src/App.tsx:613-619 | non-empty candidates hold a positive total, and an empty list holds zero |
| Fifo.SetRemaining | src/App.tsx:637-645 | batches with the id take the new remaining quantity and the status it implies; others unchanged |
| Fifo.OutMovement | src/App.tsx:650-662 | an `out` movement of the batch for the amount taken, with what is left, the order and the time |
| Fifo.BatchNos | src/App.tsx:683 | the batch numbers of the allocations, in allocation order |
| Fifo.Plan | src/App.tsx:625-634 | at most one allocation per candidate |
| Fifo.PlanFollowsCandidates | src/App.tsx:625-634 | the j-th allocation names the j-th candidate and takes a positive amount no larger than it holds |
| Fifo.PlanTakes | src/App.tsx:626-628 | each allocation is made while something is still needed and takes `min(still needed, remaining)` |
| Fifo.PlanStops | src/App.tsx:626 | a candidate is left unused only once the whole quantity is covered |
| Fifo.PlanTotal | src/App.tsx:621-647 | the allocations total `min(quantity, Σ remaining)` |
| Fifo.Drained | src/App.tsx:636-642 | the remaining quantity drops by the take and the batch is `exhausted` exactly at zero, else `active`; nothing else changes |
| Fifo.TakeOf | src/App.tsx:629-633 | a take exists exactly when some allocation names the batch, and it is the quantity of the first allocation naming it |
| Fifo.Allocate | src/App.tsx:621-664 | the batch list keeps its length, at most one allocation per candidate, and the log is the old log plus one movement per allocation |
| Fifo.AllocatePlanned | src/App.tsx:621-664 | the loop makes exactly the plan's allocations, batch updates and movements |
| Fifo.AllocateUsed | src/App.tsx:625-634 | the allocations the loop makes are the plan |
| Fifo.AllocateBatches | src/App.tsx:636-645 | the loop's batch updates are the plan's |
| Fifo.AllocateLog | src/App.tsx:649-663 | the loop's movements are the plan's movements after the old log |
| Fifo.AllocateMovements | src/App.tsx:649-663 | the j-th logged movement is the `out` movement of the j-th candidate for its take |
| Fifo.AllocationTaken | src/App.tsx:621-647 | the allocation takes `min(quantity, Σ remaining of the candidates)` |
| Fifo.ApplyPlanBatches | src/App.tsx:636-645 | each batch the plan names is drained by its take, which it could cover; every other batch is unchanged |
| Fifo.AllocationBatches | src/App.tsx:636-645 | each touched batch is drained by a positive take it could cover, never below zero and `exhausted` exactly at zero; others unchanged |
| Fifo.CompletesInitially | src/App.tsx:621-624 | before the loop, the whole allocation is still to do |
| Fifo.CompletesStep | src/App.tsx:625-663 | one round of the loop keeps its invariant |
| Fifo.CompletesFinally | src/App.tsx:625-664 | when the loop stops, its batches, log and allocations are the whole allocation |
| Fifo.ApplyPlanTotal | src/App.tsx:636-645 | applying a plan lowers the shipped product's batch total by what it takes and no other product's total |
| Fifo.AllocationTotal | src/App.tsx:621-664 | the allocation lowers the shipped product's batch total by what it took and leaves other products' totals alone |
| Fifo.ApplyPlanWrites | src/App.tsx:636-645 | whatever the ids: each batch ends with what the last allocation naming its id wrote, that candidate's remainder less its take with the matching status; a batch no allocation names is unchanged |
| Fifo.AllocationWrites | src/App.tsx:621-664 | the same of the FIFO loop's allocations and resulting batch list |
| Fifo.TwinOverwritten | src/App.tsx:636-645 | as written: two active batches sharing an id hold 5 and 10; shipping 3 takes 3 from the first, sets both to 2, and lowers the product's batch total by 11 |
| Fifo.ApplyPlanKeepsIds | src/App.tsx:637-645 | every batch keeps its id, product and creation time |
| Fifo.OldestFirstCandidates | src/App.tsx:613-619 | two drawable batches listed newest first become candidates oldest first |
| Fifo.OldestFirstAllocation | src/App.tsx:621-664 | shipping 7 from batches holding 5 (older) and 10 takes 5 then 2, exhausts the older, leaves 8 and logs two movements |
| Ledger.AddRecord | src/App.tsx:388-403 | the stamped record goes first; batches and movements unchanged |
| Ledger.AddRecordStock | src/App.tsx:395-400 | the record's product, when it exists, reads the record's `afterStock`; no other product changes |
| Ledger.AddBatch | src/App.tsx:405-412 | appends the batch with the new id and creation time; earlier batches unchanged |
| Ledger.UpdateBatch | src/App.tsx:414-418 | every batch with the id takes each of the five patchable fields the patch carries and keeps the others, every other field included; other batches unchanged |
| Ledger.UpdateBatchEmpty | src/App.tsx:414-418 | an empty patch changes nothing |
| Ledger.AddMovement | src/App.tsx:420-427 | appends the stamped movement; earlier movements unchanged |
| Ledger.ReceiptBatchNo | src/App.tsx:492-498 | `B` followed by digits, eleven more than the year's |
| Ledger.ReceiptBatchNoPadded | src/App.tsx:492-498 | the batch number is `B`, the year and five two-digit padded fields |
| Ledger.ReceiptCost | src/App.tsx:508 | the first matching item's price unless it is 0 or missing, then the product's purchase price |
| Ledger.ReceiptBatch | src/App.tsx:501-515 | `newBatch` of a received line, a definition without its own contract; `ReceiveLineBatch` states its fields and id |
| Ledger.ReceiptRecord | src/App.tsx:519-535 | the `in` record of a received line, a definition without its own contract; `ReceiveLineRecord` states it |
| Ledger.ReceiptMovement | src/App.tsx:538-551 | the `in` movement of a received line, a definition without its own contract; `ReceiveLineMovement` states it |
| Ledger.ReceiveLineStep | src/App.tsx:481-551 | one line of the receive loop, a definition without its own contract; the `ReceiveLine...` lemmas below state what it does |
| Ledger.ReceiveLines | src/App.tsx:480-554 | the receive loop, one line after another, a definition without its own contract; `ReceiveLinesFrom`, `ReceiveLinesStock`, `ReceiveLinesKeepGap` state it |
| Ledger.Receive | src/App.tsx:450-555 | handleReceivePurchase, a definition without its own contract; `ReceiveFound`, `ReceiveOrders`, `ReceiveKeepsGap` state it |
| Ledger.BatchNumbers | src/App.tsx:492-498 | one well-formed batch number per request line |
| Ledger.ReceiveLinesFrom | src/App.tsx:480-554 | receiving from the i-th line on is receiving that line, then the rest |
| Ledger.ReceiveFound | src/App.tsx:450-555 | for a found order, receiving records the receipt on the order and receives the lines |
| Ledger.ReceiveLineSkips | src/App.tsx:481-483 | a line for an unknown product or a quantity of 0 or less changes nothing |
| Ledger.ReceiveLineProducts | src/App.tsx:484-489 | a received line sets its product's stock to the old stock plus the quantity |
| Ledger.ReceiveLineStock | src/App.tsx:484-489 | a received line raises its product's stock by exactly the quantity and no other product's stock |
| Ledger.ReceiveLineKeepsProducts | src/App.tsx:485-489 | a received line neither adds nor removes a known product |
| Ledger.ReceiveLineBatch | src/App.tsx:501-516 | a received line appends one full active batch of the product and quantity, costed by `ReceiptCost`, tied to the order and supplier |
| Ledger.ReceiveLineRecord | src/App.tsx:519-535 | a received line puts one `in` record first, its stock figures differing by the quantity, naming batch and order |
| Ledger.ReceiveLineMovement | src/App.tsx:538-551 | a received line appends one `in` movement of the new batch for the quantity |
| Ledger.ReceiveLineKeepsGap | src/App.tsx:480-551 | one received line keeps every product's gap |
| Ledger.ReceiveLinesKeepGap | src/App.tsx:480-554 | all received lines keep every product's gap |
| Ledger.ReceiveTwoLines | src/App.tsx:480 | a two-line receipt is the first line's step, then the second's |
| Ledger.TwinReceipt | src/App.tsx:502 | as written: two applying lines of one product append two batches both named `stamp-productId`, so batch ids stop being distinct |
| Ledger.ReceiveLineKeepsIdsDistinct | src/App.tsx:501-516 | a line whose id `stamp-productId` is not yet taken keeps batch ids distinct |
| Ledger.ReceiveLinesKeepIdsDistinct | src/App.tsx:480-554 | a receipt whose ids are untaken and whose lines name different products keeps batch ids distinct |
| Ledger.ReceiveKeepsGap | src/App.tsx:450-555 | receiving keeps every product's gap, so balanced books stay balanced |
| Ledger.ReceiveOrders | src/App.tsx:450-477 | unknown order: nothing changes; otherwise only that order changes, its received amount grows by the value received, and it is `received` exactly when every item is complete, `confirmed` otherwise |
| Ledger.ReceiveLinesStock | src/App.tsx:480-489 | receiving raises each known product's stock by the sum of its positive lines, and no product becomes known or unknown |
| Ledger.ShipLinesFrom | src/App.tsx:608-693 | shipping from the i-th line on is shipping that line, then the rest |
| Ledger.ShipRecord | src/App.tsx:674-689 | the `out` record of a shipped line, a definition without its own contract; `ShipLineRecord` states it |
| Ledger.ShipLineStep | src/App.tsx:609-691 | one line of the ship loop given its allocation, a definition without its own contract; the `ShipLine...` lemmas state it |
| Ledger.ShipOne | src/App.tsx:609-691 | one line with its own FIFO allocation, a definition without its own contract; `ShipOneApplied`, `ShipLineGap` state it |
| Ledger.ShipLines | src/App.tsx:608-693 | the ship loop, a definition without its own contract; `ShipLinesFrom`, `ShipLinesGap` state it |
| Ledger.Ship | src/App.tsx:578-694 | handleShipSale, a definition without its own contract; `ShipFound`, `ShipOrders`, `ShipGap` state it |
| Ledger.ShipFound | src/App.tsx:578-694 | for a found order, shipping records the shipment on the order and ships the lines |
| Ledger.ShipOneApplied | src/App.tsx:609-691 | the books after a line that applies are the allocation's batches and log, the lowered stock and the new record |
| Ledger.ShipOrders | src/App.tsx:578-605 | unknown order: nothing changes; otherwise only that order changes, its shipped amount grows by the value shipped, and it is `completed` exactly when every item is complete, else `shipped` |
| Ledger.ShipLineSkips | src/App.tsx:609-611 | a line for an unknown product or a quantity of 0 or less changes nothing |
| Ledger.ShipLineProducts | src/App.tsx:666-671 | a shipped line sets its product's stock to the old stock minus the quantity |
| Ledger.ShipLineStock | src/App.tsx:666-671 | a shipped line lowers its product's stock by the whole quantity, whatever the batches cover, and no other stock |
| Ledger.ShipLineRecord | src/App.tsx:674-690 | a shipped line puts one `out` record first with the negated quantity, stock figures differing by it, and the batch numbers joined by ", " |
| Ledger.ShipLineBatches | src/App.tsx:621-664 | a shipped line's batches and movements are those of its FIFO allocation |
| Ledger.LineShortfall | src/App.tsx:613-666 | non-negative, and zero exactly when the line does not apply or the drawable batches cover it |
| Ledger.CandidatesFit | src/App.tsx:613-619 | the candidates come from the batch list, belong to the product and hold something |
| Ledger.LineAllocationTotal | src/App.tsx:613-664 | a line's allocation takes `min(quantity, available)` from its product's batch total and nothing from other products |
| Ledger.ShipLineGap | src/App.tsx:608-693 | a shipped line lowers its product's gap by its shortfall and keeps every other gap |
| Ledger.ShipLineKeepsIds | src/App.tsx:637-645 | shipping keeps batch ids distinct |
| Ledger.ShipLinesGap | src/App.tsx:608-693 | all shipped lines lower each gap by the summed shortfall |
| Ledger.ShipGap | src/App.tsx:578-694 | shipping never raises a gap and lowers it by exactly what the batches could not cover; balanced books stay balanced exactly when no line falls short |
| Ledger.Gap | src/App.tsx:484-516 | `stock − Σ remainingQuantity` of a product, a definition without its own contract; the invariant `ReceiveKeepsGap` and `ShipGap` are about |
| App.Store.constructor | src/App.tsx:28-353 | the store starts from the given arrays |
| App.Store.Dashboard | src/App.tsx:355-364 | the lengths of the arrays, the number of low-stock products, the exact numbers of pending or confirmed purchase and sale orders (zero exactly when none is open), and the two fixed monthly amounts |
| App.Store.AddProduct | src/App.tsx:366-374 | the product list becomes `Catalog.AddProduct` of the old one |
| App.Store.EditProduct | src/App.tsx:376-382 | the product list becomes `Catalog.EditProduct` of the old one |
| App.Store.DeleteProduct | src/App.tsx:384-386 | the product list becomes `Catalog.DeleteProduct` of the old one |
| App.Store.AddInventoryRecord | src/App.tsx:388-403 | products and records become `Ledger.AddRecord` of the old books |
| App.Store.AddInventoryBatch | src/App.tsx:405-412 | the batch list becomes `Ledger.AddBatch` of the old one |
| App.Store.UpdateInventoryBatch | src/App.tsx:414-418 | the batch list becomes `Ledger.UpdateBatch` of the old one |
| App.Store.AddBatchMovement | src/App.tsx:420-427 | the movement log becomes `Ledger.AddMovement` of the old one |
| App.Store.AddPurchaseOrder | src/App.tsx:429-436 | the purchase orders become `OrderBook.AddPurchaseOrder` of the old ones |
| App.Store.EditPurchaseOrder | src/App.tsx:438-444 | the purchase orders become `OrderBook.EditPurchaseOrder` of the old ones |
| App.Store.DeletePurchaseOrder | src/App.tsx:446-448 | the purchase orders become `OrderBook.DeletePurchaseOrder` of the old ones |
| App.Store.AddSaleOrder | src/App.tsx:557-564 | the sale orders become `OrderBook.AddSaleOrder` of the old ones |
| App.Store.EditSaleOrder | src/App.tsx:566-572 | the sale orders become `OrderBook.EditSaleOrder` of the old ones |
| App.Store.DeleteSaleOrder | src/App.tsx:574-576 | the sale orders become `OrderBook.DeleteSaleOrder` of the old ones |
| App.Store.ReceiveLine | src/App.tsx:480-551 | the loop body leaves the books `ReceiveLineStep` describes |
| App.Store.ReceiveAll | src/App.tsx:480-554 | the receive loop leaves the books `ReceiveLines` describes |
| App.Store.ReceivePurchase | src/App.tsx:450-555 | the handler leaves the state `Receive` describes |
| App.Store.ReceiveOrder | src/App.tsx:451-554 | for the order found, the order list becomes the old one with that order's items, received amount and status updated (`RecordReceipt`), and products, batches, records and movements become what `ReceiveLines` makes of them against the order as it was |
| App.Store.AllocateFifo | src/App.tsx:621-664 | the FIFO loop leaves the batches, the movements and the allocations of `Fifo.Allocate` |
| App.Store.ShipLine | src/App.tsx:609-691 | the loop body leaves the books `ShipOne` describes |
| App.Store.ShipAll | src/App.tsx:608-693 | the ship loop leaves the books `ShipLines` describes |
| App.Store.ShipSale | src/App.tsx:578-694 | the handler leaves the state `Ship` describes |
| App.Store.ShipOrder | src/App.tsx:579-693 | for the order found, the order list becomes the old one with that order's items, shipped amount and status updated (`RecordShipment`), and products, batches, records and movements become what `ShipLines` makes of them against the order as it was |
| Inventory.AvailablePurchaseOrders | src/components/InventoryManagement.tsx:71-74 | the confirmed orders with an item not yet fully received, in order and with every copy, and no others |
| Inventory.AvailableSaleOrders | src/components/InventoryManagement.tsx:77-80 | the confirmed orders with an item not yet fully shipped, in order and with every copy, and no others |
| Inventory.GenerateBatchNo | src/components/InventoryManagement.tsx:83-101 | empty for an unknown product; otherwise the product code and date, a dash, and one more than the product's batches whose number contains that prefix, in at least three digits |
| Inventory.BatchPrefix | src/components/InventoryManagement.tsx:87-96 | `${product.code}-${dateStr}`, a definition without its own contract; `GenerateBatchNo` states the number built on it |
| Inventory.SameDayBatches | src/components/InventoryManagement.tsx:94-97 | `todayBatches`, a definition without its own contract; `SameDayCounted`, `SameDayAppend` state it |
| Inventory.SameDayCounted | src/components/InventoryManagement.tsx:94-99 | `todayBatches.length` is the number of the product's batches whose number contains the day's prefix |
| Inventory.SameDayAppend | src/components/InventoryManagement.tsx:94-97 | adding a batch of the product with the day's prefix adds one to the day's count |
| Inventory.NextBatchNo | src/components/InventoryManagement.tsx:83-101 | once a batch numbered by the rule is added, the day's count grows by one and the next number differs |
| Inventory.NonEmpty | src/components/InventoryManagement.tsx:163-164 | `x \|\| undefined`: absent exactly for the empty string |
| Inventory.OrElse | src/components/InventoryManagement.tsx:180-183 | `x \|\| fallback`: the string unless it is empty |
| Inventory.Submit | src/components/InventoryManagement.tsx:103-206 | through the store, the books become what `Submission` describes |
| Inventory.SubmitAccepted | src/components/InventoryManagement.tsx:120-203 | for a validated form, the books become what `Submission` describes |
| Inventory.Write | src/components/InventoryManagement.tsx:154-203 | the record, batch and movement handler calls leave the books `Written` describes |
| Inventory.SubmitRejected | src/components/InventoryManagement.tsx:106-118 | an unknown product, or a stock-in or stock-out without an order, changes nothing |
| Inventory.SubmitRecord | src/components/InventoryManagement.tsx:120-169 | an accepted form puts one record first whose signed quantity links before and after stock, with the generated batch number |
| Inventory.SubmitStock | src/components/InventoryManagement.tsx:120-122 | an accepted form sets its product's stock to `before ± quantity` and no other stock |
| Inventory.SubmitBatch | src/components/InventoryManagement.tsx:172-203 | only an accepted stock-in appends a full active batch and an `in` movement, with manual fallbacks without an order; otherwise batches and movements are unchanged |
| Inventory.StockProduct | src/components/InventoryManagement.tsx:106 | a listed product with the id |
| Inventory.SubmitGap | src/components/InventoryManagement.tsx:103-206 | a stock-in keeps every gap; a stock-out or adjustment moves its product's gap by the signed quantity |
| Inventory.NewRecord | src/components/InventoryManagement.tsx:154-167 | `newRecord`, a definition without its own contract; `SubmitRecord` states it |
| Inventory.NewBatch | src/components/InventoryManagement.tsx:173-185 | `newBatch`, a definition without its own contract; `SubmitBatch` states it |
| Inventory.NewMovement | src/components/InventoryManagement.tsx:190-200 | `newMovement`, a definition without its own contract; `SubmitBatch` states it |
| Inventory.Written | src/components/InventoryManagement.tsx:169-203 | the three handler calls, a definition without its own contract; `Write` is proved against it |
| Inventory.Submission | src/components/InventoryManagement.tsx:103-206 | handleSubmit, a definition without its own contract; `SubmitRejected`, `SubmitRecord`, `SubmitStock`, `SubmitBatch`, `SubmitGap` state it |
| Inventory.AvailableForIn | src/components/InventoryManagement.tsx:221-231 | 0 without an order, a product or a matching item; otherwise the first matching item's quantity less what was received |
| Inventory.AvailableForOut | src/components/InventoryManagement.tsx:234-244 | 0 without an order, a product or a matching item; otherwise the first matching item's quantity less what was shipped |
| Inventory.AvailableAfterReceipt | src/components/InventoryManagement.tsx:221-231 | after a receipt against the order, the offered quantity drops by what was received for the product |
| Inventory.RecordedReceiptFound | src/components/InventoryManagement.tsx:224 | after recording a receipt, the order is still found at the same place and holds the new items |
| Inventory.OutstandingAfterReceipt | src/components/InventoryManagement.tsx:227-230 | a receipt lowers the first item's outstanding quantity by its line |
| Inventory.AvailableAfterShipment | src/components/InventoryManagement.tsx:234-244 | after a shipment against the order, the offered quantity drops by what was shipped for the product |
| Inventory.RecordedShipmentFound | src/components/InventoryManagement.tsx:237 | after recording a shipment, the order is still found at the same place and holds the new items |
| Inventory.OutstandingAfterShipment | src/components/InventoryManagement.tsx:240-243 | a shipment lowers the first item's outstanding quantity by its line |
| Inventory.OrderProductsForIn | src/components/InventoryManagement.tsx:247-252 | for a stock-in against a found order, its items not yet fully received, in order and with every copy, and no others; otherwise nothing |
| Inventory.OrderProductsForOut | src/components/InventoryManagement.tsx:247-259 | for a stock-out against a found order, its items not yet fully shipped, in order and with every copy, and no others; otherwise nothing |
| Inventory.OfferedWhenAvailable | src/components/InventoryManagement.tsx:221-252 | a positive offered quantity means the product is among the offered items |
| OrderForms.AddOrderItem | src/components/PurchaseManagement.tsx:173-178 | one blank line (no product, quantity 1, price 0) goes last |
| OrderForms.RemoveOrderItem | src/components/PurchaseManagement.tsx:180-185 | the line at the index is dropped; an index out of range changes nothing |
| OrderForms.RemoveAddedItem | src/components/PurchaseManagement.tsx:173-185 | removing the line just added gives back the list |
| OrderForms.UpdateOrderItem | src/components/PurchaseManagement.tsx:187-200 | only the indexed line changes: the field is set, and choosing a known product also sets the price from it (purchase price here, sale price on the sale form) |
| OrderForms.ProductName | src/components/PurchaseManagement.tsx:88-92 | the found product's name, empty for an unknown id |
| OrderForms.ItemIdsDistinct | src/components/PurchaseManagement.tsx:90 | the item ids of one submission are pairwise different |
| Purchase.FindSupplier | src/components/PurchaseManagement.tsx:84 | the index of the first supplier with the id; none exactly when no supplier has it |
| Purchase.BuildItems | src/components/PurchaseManagement.tsx:87-98 | one item per line with its product, name, quantity, price, amount `quantity × price` and nothing received |
| Purchase.TotalOfLines | src/components/PurchaseManagement.tsx:100 | the total of the items is the value of the lines |
| Purchase.TotalAmount | src/components/PurchaseManagement.tsx:100 | the reduce over the items, a definition without its own contract; `TotalOfLines` states it |
| Purchase.NewOrder | src/components/PurchaseManagement.tsx:87-112 | the built `purchaseOrder`, a definition without its own contract; `NewOrderTotals` states it |
| Purchase.Submission | src/components/PurchaseManagement.tsx:81-122 | handleSubmit on the orders, a definition without its own contract; `SubmitUnknownSupplier`, `SubmitAdds`, `SubmitEditResets` state it |
| Purchase.NothingReceived | src/components/PurchaseManagement.tsx:95-111 | items nothing of which is received have no received value |
| Purchase.OrderNo | src/components/PurchaseManagement.tsx:72-79 | the user's number if any, else `PO-` with the date, a dash and a three-digit draw |
| Purchase.NewOrderTotals | src/components/PurchaseManagement.tsx:87-112 | the built order totals the form's lines and starts with nothing received |
| Purchase.Submit | src/components/PurchaseManagement.tsx:81-122 | through the store, the purchase orders become what `Submission` describes |
| Purchase.SubmitUnknownSupplier | src/components/PurchaseManagement.tsx:84-85 | an unknown supplier changes nothing |
| Purchase.SubmitAdds | src/components/PurchaseManagement.tsx:87-119 | a new order goes last, numbered, stamped, totalling the lines, with the supplier's name |
| Purchase.SubmitEditResets | src/components/PurchaseManagement.tsx:87-119 | editing rebuilds the items, so the edited order loses its received quantities and amount |
| Purchase.ReceiveDefaults | src/components/PurchaseManagement.tsx:164-171 | one line per item, in order, asking for what is still to be received |
| Purchase.ItemProducts | src/components/PurchaseManagement.tsx:164-171 | the products of the items, in order |
| Purchase.ReceiveDefaultsComplete | src/components/PurchaseManagement.tsx:164-171 | with no product on two items, receiving the defaults completes every item |
| Purchase.ReceiveDefaultsFor | src/components/PurchaseManagement.tsx:164-171 | with no product on two items, each item's receipt is its outstanding quantity |
| Purchase.PendingOrders | src/components/PurchaseManagement.tsx:69 | the pending or confirmed orders, in order and with every copy, and no others |
| Purchase.ReceivedOrders | src/components/PurchaseManagement.tsx:70 | the received orders, in order and with every copy, and no others |
| Purchase.TabsDisjoint | src/components/PurchaseManagement.tsx:69-70 | no order is on both tabs |
| Sales.FindCustomer | src/components/SalesManagement.tsx:86 | the index of the first customer with the id; none exactly when no customer has it |
| Sales.BuildItems | src/components/SalesManagement.tsx:89-100 | one item per line with its product, name, quantity, price, amount `quantity × price` and nothing shipped |
| Sales.TotalOfLines | src/components/SalesManagement.tsx:102 | the total of the items is the value of the lines |
| Sales.TotalAmount | src/components/SalesManagement.tsx:102 | the reduce over the items, a definition without its own contract; `TotalOfLines` states it |
| Sales.NewOrder | src/components/SalesManagement.tsx:89-114 | the built `saleOrder`, a definition without its own contract; `NewOrderTotals` states it |
| Sales.Submission | src/components/SalesManagement.tsx:83-124 | handleSubmit on the orders, a definition without its own contract; `SubmitUnknownCustomer`, `SubmitAdds`, `SubmitEditResets` state it |
| Sales.NothingShipped | src/components/SalesManagement.tsx:97-113 | items nothing of which is shipped have no shipped value |
| Sales.OrderNo | src/components/SalesManagement.tsx:74-81 | the user's number if any, else `SO-` with the date, a dash and a three-digit draw |
| Sales.NewOrderTotals | src/components/SalesManagement.tsx:89-114 | the built order totals the form's lines and starts with nothing shipped |
| Sales.Submit | src/components/SalesManagement.tsx:83-124 | through the store, the sale orders become what `Submission` describes |
| Sales.SubmitUnknownCustomer | src/components/SalesManagement.tsx:86-87 | an unknown customer changes nothing |
| Sales.SubmitAdds | src/components/SalesManagement.tsx:89-121 | a new order goes last, numbered, stamped, totalling the lines, with the customer's name |
| Sales.SubmitEditResets | src/components/SalesManagement.tsx:89-121 | editing rebuilds the items, so the edited order loses its shipped quantities and amount |
| Sales.ShipDefaults | src/components/SalesManagement.tsx:166-173 | one line per item, in order, asking for what is still to be shipped |
| Sales.ItemProducts | src/components/SalesManagement.tsx:166-173 | the products of the items, in order |
| Sales.ShipDefaultsComplete | src/components/SalesManagement.tsx:166-173 | with no product on two items, shipping the defaults completes every item |
| Sales.ShipDefaultsFor | src/components/SalesManagement.tsx:166-173 | with no product on two items, each item's shipment is its outstanding quantity |
| Sales.PendingOrders | src/components/SalesManagement.tsx:70 | the pending or confirmed orders, in order and with every copy, and no others |
| Sales.ShippedOrders | src/components/SalesManagement.tsx:71 | the shipped orders, in order and with every copy, and no others |
| Sales.CompletedOrders | src/components/SalesManagement.tsx:72 | the completed orders, in order and with every copy, and no others |
| Sales.TabsDisjoint | src/components/SalesManagement.tsx:70-72 | no order is on two tabs |
| Reports.InventoryValue | src/components/ReportsAnalysis.tsx:61-63 | the reduce over the products, a definition without its own contract; `InventoryValueAppend`, `InventoryValueRestock` state it |
| Reports.InventoryValueAppend | src/components/ReportsAnalysis.tsx:61-63 | the value of two lists together is the sum of their values |
| Reports.InventoryValueRestock | src/components/ReportsAnalysis.tsx:61-63 | changing one product's stock moves the value by the change times its purchase price |
| Reports.NormalStockCount | src/components/ReportsAnalysis.tsx:459 | total less low equals the number of products not low on stock |
| Reports.Top | src/components/ReportsAnalysis.tsx:119-121 | exactly five entries, or all of them when fewer, drawn from the input (every one when there are at most five), largest amount first, none left out larger than one kept |
| Reports.TopOfSorted | src/components/ReportsAnalysis.tsx:119-121 | the first five of a descending rearrangement are descending members of the input |
| Reports.TopOfSortedRest | src/components/ReportsAnalysis.tsx:119-121 | what the slice leaves out is no larger than anything it keeps |
| Reports.TallyProducts | src/components/ReportsAnalysis.tsx:105-117 | the nested loops build the dictionary `ProductTally` describes |
| Reports.TallyOrderItems | src/components/ReportsAnalysis.tsx:106-116 | the inner loop adds one order's items as `TallyItems` describes |
| Reports.TallyItem | src/components/ReportsAnalysis.tsx:107-115 | one item of the inner loop, a definition without its own contract; `TallyItemEffect` states it |
| Reports.ProductTally | src/components/ReportsAnalysis.tsx:105-117 | the `productSales` dictionary, a definition without its own contract; `ProductTallyTotals`, `ProductTallyUnique` state it |
| Reports.TallyItemEffect | src/components/ReportsAnalysis.tsx:107-115 | one item adds its shipped quantity and value to its own product's entry only |
| Reports.TallyItemsEffect | src/components/ReportsAnalysis.tsx:106-116 | an order's items add their shipped quantities and values per product |
| Reports.ProductTallyTotals | src/components/ReportsAnalysis.tsx:102-117 | each product's entry holds its shipped quantity and value over all orders, and exists exactly when some order has the product |
| Reports.TallyItemsUnique | src/components/ReportsAnalysis.tsx:107-113 | adding items never creates a second entry for a product |
| Reports.ProductTallyUnique | src/components/ReportsAnalysis.tsx:105-117 | no product has two entries |
| Reports.GetTopSellingProducts | src/components/ReportsAnalysis.tsx:102-122 | exactly five distinct products, or every product sold when fewer than five were, by descending shipped value, with their true totals, none left out above one kept |
| Reports.TopProductsUnique | src/components/ReportsAnalysis.tsx:119-121 | the top five show no product twice |
| Reports.TopProductsTotals | src/components/ReportsAnalysis.tsx:119-121 | each listed product carries its totals over all orders |
| Reports.TopProductsAll | src/components/ReportsAnalysis.tsx:102-122 | when the top list holds all of the tally, every sold product is in it |
| Reports.TopProductsRest | src/components/ReportsAnalysis.tsx:119-121 | a sold product left out has no more shipped value than any product listed |
| Reports.TallyCustomers | src/components/ReportsAnalysis.tsx:128-138 | the loop builds the dictionary `CustomerTally` describes |
| Reports.TallyOrder | src/components/ReportsAnalysis.tsx:129-137 | one order of the loop, a definition without its own contract; `TallyOrderEffect` states it |
| Reports.AddOrder | src/components/ReportsAnalysis.tsx:136-137 | the entry keeps its customer and name, its amount grows by the order's shipped amount and its order count by one |
| Reports.TallyAdded | src/components/ReportsAnalysis.tsx:129-137 | the found entry and the newly created zero entry both end, once the order is added, in `TallyOrder` |
| Reports.CustomerTally | src/components/ReportsAnalysis.tsx:128-138 | the `customerSales` dictionary, a definition without its own contract; `CustomerTallyTotals`, `CustomerTallyUnique` state it |
| Reports.CustomerTallyStep | src/components/ReportsAnalysis.tsx:128-138 | the tally of one more order is that order added to the tally so far |
| Reports.TallyOrderEffect | src/components/ReportsAnalysis.tsx:129-137 | one order adds its shipped amount and one order to its own customer's entry only |
| Reports.CustomerTallyTotals | src/components/ReportsAnalysis.tsx:125-138 | each customer's entry holds the sum of shipped amounts and the count of their orders, and exists exactly when they have an order |
| Reports.CustomerTallyUnique | src/components/ReportsAnalysis.tsx:128-138 | no customer has two entries |
| Reports.GetTopCustomers | src/components/ReportsAnalysis.tsx:125-143 | exactly five distinct customers, or every customer with an order when fewer than five have one, by descending shipped amount, with their true totals, none left out above one kept |
| Reports.TopCustomersUnique | src/components/ReportsAnalysis.tsx:140-142 | the top five show no customer twice |
| Reports.TopCustomersTotals | src/components/ReportsAnalysis.tsx:140-142 | each listed customer carries their totals over all orders |
| Reports.TopCustomersAll | src/components/ReportsAnalysis.tsx:125-143 | when the top list holds all of the tally, every customer with an order is in it |
| Reports.TopCustomersRest | src/components/ReportsAnalysis.tsx:140-142 | a customer left out has no more shipped amount than any customer listed |
| Batching.StaleReceiveProducts | src/App.tsx:480-489 | the product list as written, each applying line's map over the captured list, a definition without its own contract; `StaleReceiveTwo`, `StaleReceiveLosesStock` state it |
| Batching.StaleReceiveTwo | src/App.tsx:484-489 | with two lines applied to the captured product list, the first line's stock change is overwritten by the second's |
| Batching.StaleReceiveLosesStock | src/App.tsx:480-489 | as written, a two-line receipt leaves the first product's stock unchanged, while the sequential model raises it by its quantity |
| Batching.RequestedFirst | src/App.tsx:480-489 | in a two-line receipt of different products, the first product's requested total is its own line |

## Left out

- Stale closures in the receive and ship handlers. These handlers
  call `setProducts(products.map(...))` on the product list captured when the
  handler started. Inside the loop, their other setters use an updater, `prev => ...`. The
  `Ledger` model applies the request lines one after another, each seeing the
  state the previous line left. `Batching` shows the difference for receiving
  (see Findings). The same effect in the ship handler is not modelled as
  written: the FIFO candidates of each line come from the captured batch list
  (src/App.tsx:613), and each line's stock update uses the captured product
  list (src/App.tsx:667).
- The search filters of the order and record screens (`toLowerCase().includes`)
  are left out. The status tabs are modelled over the whole order list. The
  model does no case folding.
- Property order of `Object.values` for integer-like keys is not modelled.
  The report dictionaries keep insertion order, which matters only for ties
  in the ranking.
- The `Partial<...>` updates of products and orders are modelled as full
  data. The handler keeps id and creation time. Batch updates are the only
  ones modelled field by field (`BatchPatch`).
- `Date.now()`, `new Date()` and `Math.random()` are parameters: a stamp, a
  time, a calendar reading (`Clock`) and the draws (`Draw`, `OrderDraw`).
  Times are integers.
- Numbers are unbounded integers. Floating-point prices, `parseFloat`,
  `parseInt` of form input and `Math.round` are left out. Form quantities
  arrive already parsed.
- The month and seven-day filters of the reports and the dashboard (date
  parsing) are left out.
- Fifo.ApplyPlanBatches: assumes distinct batch ids. The application does not
  ensure them: a receipt with two lines of one product gives both batches the
  id `stamp-productId` (src/App.tsx:502, `Ledger.TwinReceipt`). Without the
  assumption, `Fifo.ApplyPlanWrites` states what the batches become.
- Fifo.AllocationBatches: assumes distinct batch ids, as above;
  `Fifo.AllocationWrites` covers twin ids.
- Fifo.ApplyPlanTotal: assumes distinct batch ids, as above. With twins the
  total can drop by more than the take (`Fifo.TwinOverwritten`).
- Fifo.AllocationTotal: assumes distinct batch ids, as above
  (`Fifo.TwinOverwritten`).
- Ledger.CandidatesFit: assumes distinct batch ids, as above.
- Ledger.LineAllocationTotal: assumes distinct batch ids, as above.
- Ledger.ShipLineGap: assumes distinct batch ids, as above.
- Ledger.ShipLinesGap: assumes distinct batch ids, as above.
- Ledger.ShipGap: assumes distinct batch ids, as above.
  `Ledger.ReceiveLinesKeepIdsDistinct` gives receipts that keep the
  assumption: ids not yet taken, and lines that name different products.
- Inventory.Submission, Inventory.NewMovement, Ledger.ReceiveLines,
  Purchase.BuildItems, Sales.BuildItems: one `Date.now()` stamp serves a
  whole handler call. The source reads the clock
  afresh for each id, and a later read may fall in a later millisecond.
  In the inventory form this makes the manual `in` movement's `batchId`
  (src/components/InventoryManagement.tsx:191) equal to the id the store
  gives the batch (src/App.tsx:408), as `Inventory.SubmitBatch` states. The
  source makes them equal only when both reads fall in the same millisecond.
  In the receive handler, two lines of one product get the same batch id in
  the model. In the source they need the same millisecond too.
  In the purchase and sales forms, the item ids `item-<stamp>-<index>` use
  the stamp that also becomes the order's id. The source reads the clock
  separately for each item (src/components/PurchaseManagement.tsx:90,
  src/components/SalesManagement.tsx:92) and for the order
  (src/App.tsx:432, src/App.tsx:560).
- Suppliers and customers: their screens and handlers, BarcodeScanner,
  SystemSettings, Sidebar, the Dashboard and ProductManagement screens, and
  all JSX, `alert` and `resetForm` calls.

## Findings

| source | as written | input that shows it | evidently intended | confidence | as-written member | corrected member |
|---|---|---|---|---|---|---|
| src/App.tsx:485-489 | each request line calls `setProducts(products.map(...))` on the product list captured when the handler started, so every line maps that same list and only the last applying line's stock change is kept | a receipt with two lines, for two different known products, both with positive quantities: the first product's stock stays as it was while its batch, record and movement are written | every received line raises its product's stock, as its batch and `in` record say | high; not executed | Batching.StaleReceiveLosesStock | Ledger.ReceiveLinesStock |
| src/App.tsx:502 | every batch of one receipt gets the id `${Date.now()}-${productId}`, so two lines of the same product in one receipt give two batches the same id (`Ledger.TwinReceipt`); the ship loop's `prev.map(b => b.id === batch.id ? ...)` (src/App.tsx:637-645) then writes both twins with the remainder of the one drawn | a receipt with lines of 5 and 10 units of one product, then a shipment of 3: the older twin is drawn, and both twins are set to 2, so the product's batches hold 4 instead of 12 | batch ids are unique, so each FIFO write touches only the batch drawn and the batches lose exactly what was shipped | high; not executed | Fifo.TwinOverwritten | Fifo.AllocationTotal |
