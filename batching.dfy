/** What React makes of the stock updates of handleReceivePurchase
    (src/App.tsx:480-489). Every line that applies calls
    `setProducts(products.map(...))` with the product list captured when the
    handler started, and a later plain `setProducts` replaces an earlier one,
    so the product list the application keeps is the one the last applying
    line computed from the captured list. The batches, records and movements
    are set through `prev => ...` updates and so accumulate as `Ledger` models
    them. */
module Batching {
  import opened Seqs
  import opened Types
  import opened Catalog
  import opened Ledger

  /** The product list after the receive loop under React's state updates:
      the last applying line's stock change, made on the captured list `ps`. */
  function StaleReceiveProducts(ps: seq<Product>, lines: seq<ReceiveLine>, now: int): seq<Product>
    decreases |lines|
  {
    if |lines| == 0 then ps
    else
      var last := lines[|lines| - 1];
      if last.receivedQuantity > 0 && HasProduct(ps, last.productId) then
        WithStock(ps, last.productId, StockOf(ps, last.productId) + last.receivedQuantity, now)
      else StaleReceiveProducts(ps, lines[..|lines| - 1], now)
  }

  /** Two applying lines for different products: the product list kept is the
      second line's, so the first product's stock does not move. */
  lemma StaleReceiveTwo(ps: seq<Product>, a: ReceiveLine, b: ReceiveLine, now: int)
    requires a.productId != b.productId && b.receivedQuantity > 0
    requires HasProduct(ps, b.productId)
    ensures StockOf(StaleReceiveProducts(ps, [a, b], now), a.productId) == StockOf(ps, a.productId)
    ensures StockOf(StaleReceiveProducts(ps, [a, b], now), b.productId) == StockOf(ps, b.productId) + b.receivedQuantity
  {
    var raised := WithStock(ps, b.productId, StockOf(ps, b.productId) + b.receivedQuantity, now);
    assert [a, b][1] == b;
    assert StaleReceiveProducts(ps, [a, b], now) == raised;
    StockOfRaised(ps, raised, b.productId, b.receivedQuantity, now, a.productId);
    StockOfRaised(ps, raised, b.productId, b.receivedQuantity, now, b.productId);
  }

  /** A receipt of two known products: as written, the first product's stock
      does not move, while the per-line application raises it by its quantity. */
  lemma StaleReceiveLosesStock(B: Books, order: PurchaseOrder, items: seq<PurchaseItem>, a: ReceiveLine,
                               b: ReceiveLine, batchNos: seq<string>, stamp: string, now: int)
    requires a.productId != b.productId && a.receivedQuantity > 0 && b.receivedQuantity > 0
    requires HasProduct(B.products, a.productId) && HasProduct(B.products, b.productId)
    requires |batchNos| == 2
    ensures StockOf(StaleReceiveProducts(B.products, [a, b], now), a.productId) == StockOf(B.products, a.productId)
    ensures StockOf(ReceiveLines(B, order, items, [a, b], batchNos, stamp, now).products, a.productId)
         == StockOf(B.products, a.productId) + a.receivedQuantity
  {
    StaleReceiveTwo(B.products, a, b, now);
    ReceiveLinesStock(B, order, items, [a, b], batchNos, stamp, now, a.productId);
    RequestedFirst(a, b);
  }

  /** Of two lines for different products, only the first counts for its product. */
  lemma RequestedFirst(a: ReceiveLine, b: ReceiveLine)
    requires a.productId != b.productId && a.receivedQuantity > 0
    ensures RequestedTotal([a, b], a.productId) == a.receivedQuantity
  {
    assert [a, b][1..] == [b] && [b][1..] == [];
    assert RequestedTotal([b], a.productId) == RequestedTotal([], a.productId);
  }
}
