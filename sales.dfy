/** The sale record `handleSaleComplete` writes: one item per cart line plus the cart total. */
module Sales {
  import opened Catalog
  import opened Cart

  datatype SaleItem = SaleItem(productId: ProductId, productName: string, quantity: int, unitPrice: int, totalPrice: int)

  /** What the payment dialog hands over (`saleData`). An empty customer name or phone stands
      for a missing one, as JavaScript treats `''` and `undefined` alike in `if` and `||`. */
  datatype SaleData = SaleData(paymentMethod: string, customerName: string, customerPhone: string)

  datatype Sale = Sale(data: SaleData, items: seq<SaleItem>, totalAmount: int, receiptNumber: string)

  function ItemOf(l: CartLine): SaleItem {
    SaleItem(l.id, l.name, l.quantity, l.price, l.price * l.quantity)
  }

  /** `cart.map(item => ({ product_id, product_name, quantity, unit_price, total_price }))`. */
  function SaleItems(cart: seq<CartLine>): (items: seq<SaleItem>)
    ensures |items| == |cart|
    ensures forall i :: 0 <= i < |cart| ==> items[i].productId == cart[i].id && items[i].quantity == cart[i].quantity
  {
    seq(|cart|, i requires 0 <= i < |cart| => ItemOf(cart[i]))
  }

  /** The sum of the items' `total_price`. */
  function ItemsTotal(items: seq<SaleItem>): int {
    if items == [] then 0 else items[0].totalPrice + ItemsTotal(items[1..])
  }

  /** The cart total is the sum of the sale items' totals. */
  lemma {:induction false} SaleTotalMatchesItems(cart: seq<CartLine>)
    ensures Total(cart) == ItemsTotal(SaleItems(cart))
  {
    if cart != [] {
      assert Total(cart) == LineTotal(cart[0]) + Total(cart[1..]) by {
        TotalSplit(cart, 0);
        assert cart[..0] == [];
      }
      ItemsTotalFront(cart);
      SaleTotalMatchesItems(cart[1..]);
    }
  }

  lemma ItemsTotalFront(cart: seq<CartLine>)
    requires cart != []
    ensures ItemsTotal(SaleItems(cart)) == LineTotal(cart[0]) + ItemsTotal(SaleItems(cart[1..]))
  {
    assert SaleItems(cart)[1..] == SaleItems(cart[1..]);
  }

  /** The record passed to `Sale.create`: `saleData`'s fields, the items, `calculateTotal()`
      and the receipt number. */
  function MakeSale(cart: seq<CartLine>, data: SaleData, receiptNumber: string): (s: Sale)
    ensures s.data == data && s.receiptNumber == receiptNumber
    ensures |s.items| == |cart|
    ensures forall i :: 0 <= i < |cart| ==>
      && s.items[i].productId == cart[i].id
      && s.items[i].productName == cart[i].name
      && s.items[i].quantity == cart[i].quantity
      && s.items[i].unitPrice == cart[i].price
      && s.items[i].totalPrice == cart[i].price * cart[i].quantity
    ensures s.totalAmount == ItemsTotal(s.items)
  {
    SaleTotalMatchesItems(cart);
    Sale(data, SaleItems(cart), Total(cart), receiptNumber)
  }
}
