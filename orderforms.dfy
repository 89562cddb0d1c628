/** The item list of the purchase-order and sale-order forms
    (src/components/PurchaseManagement.tsx, src/components/SalesManagement.tsx),
    which the two components edit alike: append a blank line, drop a line by
    index, overwrite one field of one line; and the item ids and names both
    give the order's items. */
module OrderForms {
  import opened Seqs
  import opened Strings
  import opened Types
  import opened Catalog

  /** The line `addOrderItem` appends. */
  const BlankLine: FormLine := FormLine("", 1, 0)

  /** addOrderItem: the blank line goes last. */
  function AddOrderItem(items: seq<FormLine>): (r: seq<FormLine>)
    ensures |r| == |items| + 1 && r[..|items|] == items
    ensures r[|items|].productId == "" && r[|items|].quantity == 1 && r[|items|].price == 0
  {
    items + [BlankLine]
  }

  /** removeOrderItem: `items.filter((_, i) => i !== index)`, walking the list
      with the index counting down. */
  function RemoveOrderItem(items: seq<FormLine>, index: int): (r: seq<FormLine>)
    ensures 0 <= index < |items| ==> r == items[..index] + items[index + 1..]
    ensures !(0 <= index < |items|) ==> r == items
    decreases |items|
  {
    if |items| == 0 then []
    else
      var rest := RemoveOrderItem(items[1..], index - 1);
      assert 0 < index < |items| ==> items[1..][..index - 1] == items[1..index];
      assert 0 <= index < |items| ==> items[1..][index..] == items[index + 1..];
      assert !(0 <= index < |items|) ==> items == [items[0]] + items[1..];
      if index == 0 then rest else [items[0]] + rest
  }

  /** Removing the line just added gives back the list. */
  lemma RemoveAddedItem(items: seq<FormLine>)
    ensures RemoveOrderItem(AddOrderItem(items), |items|) == items
  {
    assert AddOrderItem(items)[..|items|] == items;
  }

  /** `Σ quantity × price` over the form's lines. */
  function LinesValue(lines: seq<FormLine>): int
  {
    if |lines| == 0 then 0 else lines[0].quantity * lines[0].price + LinesValue(lines[1..])
  }

  /** `{ ...line, [field]: value }`. */
  function SetField(line: FormLine, field: ItemField): FormLine
  {
    match field
    case ProductIdField(id) => line.(productId := id)
    case QuantityField(q) => line.(quantity := q)
    case PriceField(p) => line.(price := p)
  }

  /** updateOrderItem: copy the lines, overwrite one field of the line at
      `index`; choosing a product the catalog knows also sets that line's price
      to the product's catalog price (`priceOf`: the purchase price on the
      purchase form, the sale price on the sale form). Every other line is kept. */
  method UpdateOrderItem(items: seq<FormLine>, index: nat, field: ItemField, products: seq<Product>,
                         priceOf: Product -> int) returns (r: seq<FormLine>)
    requires index < |items|
    ensures |r| == |items|
    ensures forall j :: 0 <= j < |items| && j != index ==> r[j] == items[j]
    ensures field.QuantityField? ==> r[index] == items[index].(quantity := field.quantity)
    ensures field.PriceField? ==> r[index] == items[index].(price := field.price)
    ensures field.ProductIdField? ==>
      r[index].productId == field.productId && r[index].quantity == items[index].quantity &&
      r[index].price == if field.productId != "" && HasProduct(products, field.productId)
                        then priceOf(products[FindProduct(products, field.productId).value])
                        else items[index].price
  {
    var updated := new FormLine[|items|](j requires 0 <= j < |items| => items[j]);
    updated[index] := SetField(updated[index], field);
    if field.ProductIdField? && field.productId != "" {
      var k := FindProduct(products, field.productId);
      if k.Some? {
        updated[index] := updated[index].(price := priceOf(products[k.value]));
      }
    }
    r := updated[..];
  }

  /** `product?.name || ''`. */
  function ProductName(products: seq<Product>, id: string): (r: string)
    ensures !HasProduct(products, id) ==> r == ""
    ensures HasProduct(products, id) ==> r == products[FindProduct(products, id).value].name
  {
    match FindProduct(products, id)
    case Some(k) => products[k].name
    case None => ""
  }

  /** `item-${Date.now()}-${index}`. */
  function ItemId(stamp: string, index: nat): string
  {
    "item-" + stamp + "-" + NatToString(index)
  }

  /** The item ids of one submission are pairwise different. */
  lemma ItemIdsDistinct(stamp: string, i: nat, j: nat)
    requires i != j
    ensures ItemId(stamp, i) != ItemId(stamp, j)
  {
    var head := "item-" + stamp + "-";
    Split(head, NatToString(i));
    Split(head, NatToString(j));
    NatToStringRoundTrip(i);
    NatToStringRoundTrip(j);
  }
}
