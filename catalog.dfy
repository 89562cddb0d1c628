/** The product list of the application's top-level state (src/App.tsx): the
    product handlers, the stock lookups the engine uses, and the dashboard counts. */
module Catalog {
  import opened Seqs
  import opened Types

  /** Index of the first product with this id (`products.find(p => p.id === id)`). */
  function FindProduct(ps: seq<Product>, id: string): (r: Option<nat>)
    ensures r.Some? ==> r.value < |ps| && ps[r.value].id == id
    ensures r.Some? ==> forall j :: 0 <= j < r.value ==> ps[j].id != id
    ensures r.None? <==> forall j :: 0 <= j < |ps| ==> ps[j].id != id
  {
    Find(ps, (p: Product) => p.id == id)
  }

  /** The stock of the product the application finds under `id`; 0 when none. */
  function StockOf(ps: seq<Product>, id: string): int
  {
    match FindProduct(ps, id)
    case Some(k) => ps[k].stock
    case None => 0
  }

  predicate HasProduct(ps: seq<Product>, id: string)
  {
    FindProduct(ps, id).Some?
  }

  /** `products.map(p => p.id === id ? { ...p, stock, updateTime: now } : p)`. */
  function WithStock(ps: seq<Product>, id: string, stock: int, now: int): (r: seq<Product>)
    ensures |r| == |ps|
    ensures forall k {:trigger r[k]} :: 0 <= k < |ps| && ps[k].id == id ==> r[k] == ps[k].(stock := stock, updateTime := now)
    ensures forall k {:trigger r[k]} :: 0 <= k < |ps| && ps[k].id != id ==> r[k] == ps[k]
  {
    seq(|ps|, k requires 0 <= k < |ps| =>
      if ps[k].id == id then ps[k].(stock := stock, updateTime := now) else ps[k])
  }

  /** Setting the stock of one id sets what `StockOf` reads for that id, when the
      product exists, and changes nothing for any other id. */
  lemma StockOfWithStock(ps: seq<Product>, id: string, stock: int, now: int, other: string)
    ensures StockOf(WithStock(ps, id, stock, now), other)
         == if other == id && HasProduct(ps, id) then stock else StockOf(ps, other)
    ensures FindProduct(WithStock(ps, id, stock, now), other) == FindProduct(ps, other)
  {
    var r := WithStock(ps, id, stock, now);
    assert forall j :: 0 <= j < |ps| ==> r[j].id == ps[j].id;
    assert FindProduct(r, other) == FindProduct(ps, other) by {
      FindSameIds(ps, r, other);
    }
  }

  lemma WithStockOnlyThatId(ps: seq<Product>, id: string, stock: int, now: int)
    ensures forall other :: (StockOf(WithStock(ps, id, stock, now), other)
                             == if other == id && HasProduct(ps, id) then stock else StockOf(ps, other))
  {
    forall other ensures StockOf(WithStock(ps, id, stock, now), other)
      == if other == id && HasProduct(ps, id) then stock else StockOf(ps, other)
    {
      StockOfWithStock(ps, id, stock, now, other);
    }
  }

  /** Raising a known product's stock by `q` raises what `StockOf` reads by `q`
      for that id and by nothing for any other id. */
  lemma StockOfRaised(ps: seq<Product>, raised: seq<Product>, id: string, q: int, now: int, x: string)
    requires HasProduct(ps, id) && raised == WithStock(ps, id, StockOf(ps, id) + q, now)
    ensures StockOf(raised, x) == StockOf(ps, x) + (if x == id then q else 0)
    ensures HasProduct(raised, x) == HasProduct(ps, x)
  {
    var stock := StockOf(ps, id) + q;
    StockOfWithStock(ps, id, stock, now, x);
    assert StockOf(raised, x) == if x == id then stock else StockOf(ps, x);
  }

  /** Lowering a known product's stock by `q` lowers what `StockOf` reads by `q`
      for that id and by nothing for any other id. */
  lemma StockOfLowered(ps: seq<Product>, lowered: seq<Product>, id: string, q: int, now: int, x: string)
    requires HasProduct(ps, id) && lowered == WithStock(ps, id, StockOf(ps, id) - q, now)
    ensures StockOf(lowered, x) == StockOf(ps, x) - (if x == id then q else 0)
  {
    var stock := StockOf(ps, id) - q;
    StockOfWithStock(ps, id, stock, now, x);
    assert StockOf(lowered, x) == if x == id then stock else StockOf(ps, x);
  }

  /** `find` by id depends only on the ids. */
  lemma {:induction false} FindSameIds(a: seq<Product>, b: seq<Product>, id: string)
    requires |a| == |b| && forall j :: 0 <= j < |a| ==> a[j].id == b[j].id
    ensures FindProduct(a, id) == FindProduct(b, id)
  {
    if |a| > 0 && a[0].id != id {
      FindSameIds(a[1..], b[1..], id);
    }
  }

  /** handleAddProduct: the new product goes last, with its id and both times set. */
  function AddProduct(ps: seq<Product>, data: Product, stamp: string, now: int): (r: seq<Product>)
    ensures |r| == |ps| + 1 && r[..|ps|] == ps
    ensures r[|ps|].id == stamp && r[|ps|].createTime == now && r[|ps|].updateTime == now
    ensures r[|ps|].(id := data.id, createTime := data.createTime, updateTime := data.updateTime) == data
  {
    ps + [data.(id := stamp, createTime := now, updateTime := now)]
  }

  /** handleEditProduct: every product with the id takes the form's data and the
      update time, keeping its id and creation time; the others are untouched. */
  function EditProduct(ps: seq<Product>, id: string, data: Product, now: int): (r: seq<Product>)
    ensures |r| == |ps|
    ensures forall k :: 0 <= k < |ps| && ps[k].id == id ==>
      r[k] == data.(id := ps[k].id, createTime := ps[k].createTime, updateTime := now)
    ensures forall k :: 0 <= k < |ps| && ps[k].id != id ==> r[k] == ps[k]
  {
    seq(|ps|, k requires 0 <= k < |ps| =>
      if ps[k].id == id then data.(id := ps[k].id, createTime := ps[k].createTime, updateTime := now)
      else ps[k])
  }

  /** handleDeleteProduct: exactly the products with other ids remain, in order. */
  function DeleteProduct(ps: seq<Product>, id: string): (r: seq<Product>)
    ensures forall k :: 0 <= k < |r| ==> r[k].id != id && r[k] in ps
    ensures forall k :: 0 <= k < |ps| && ps[k].id != id ==> ps[k] in r
    ensures !HasProduct(r, id)
    ensures Filtered(r, ps, (p: Product) => p.id != id)
  {
    Filter(ps, (p: Product) => p.id != id)
  }

  predicate IsLowStock(p: Product)
  {
    p.stock <= p.minStock
  }

  /** The products at or below their reorder threshold, in list order. */
  function LowStockProducts(ps: seq<Product>): (r: seq<Product>)
    ensures forall k :: 0 <= k < |r| ==> IsLowStock(r[k]) && r[k] in ps
    ensures forall k :: 0 <= k < |ps| && IsLowStock(ps[k]) ==> ps[k] in r
    ensures Filtered(r, ps, IsLowStock)
  {
    Filter(ps, IsLowStock)
  }

  /** The dashboard's low-stock figure is the number of products counted as low. */
  lemma LowStockCountMatches(ps: seq<Product>)
    ensures |LowStockProducts(ps)| == Count(ps, IsLowStock)
  {
    FilterCount(ps, IsLowStock);
  }

  predicate IsPendingPurchase(o: PurchaseOrder)
  {
    o.status == PurchaseStatus.Pending || o.status == PurchaseStatus.Confirmed
  }

  predicate IsPendingSale(o: SaleOrder)
  {
    o.status == SaleStatus.Pending || o.status == SaleStatus.Confirmed
  }

  /** The dashboard's pending-purchase figure. */
  function PendingPurchaseCount(orders: seq<PurchaseOrder>): (n: nat)
    ensures n == Count(orders, IsPendingPurchase)
    ensures n <= |orders|
    ensures n == 0 <==> forall k :: 0 <= k < |orders| ==> !IsPendingPurchase(orders[k])
  {
    var pending := Filter(orders, IsPendingPurchase);
    FilterCount(orders, IsPendingPurchase);
    assert |pending| > 0 ==> pending[0] in orders && IsPendingPurchase(pending[0]);
    assert forall k :: 0 <= k < |orders| && IsPendingPurchase(orders[k]) ==> orders[k] in pending;
    |pending|
  }

  /** The dashboard's pending-sale figure. */
  function PendingSaleCount(orders: seq<SaleOrder>): (n: nat)
    ensures n == Count(orders, IsPendingSale)
    ensures n <= |orders|
    ensures n == 0 <==> forall k :: 0 <= k < |orders| ==> !IsPendingSale(orders[k])
  {
    var pending := Filter(orders, IsPendingSale);
    FilterCount(orders, IsPendingSale);
    assert |pending| > 0 ==> pending[0] in orders && IsPendingSale(pending[0]);
    assert forall k :: 0 <= k < |orders| && IsPendingSale(orders[k]) ==> orders[k] in pending;
    |pending|
  }
}
