/** The cart the cashier edits before payment: an ordered list of lines, each a copy of a
    product plus a quantity. Every edit is a pure function from the previous cart to the next,
    as the page's `setCart(prevCart => ...)` updaters are. */
module Cart {
  import opened Wrappers
  import opened Seqs
  import opened Catalog

  /** `{ ...product, quantity }`: the product's fields as they were when it was added. */
  datatype CartLine = CartLine(id: ProductId, name: string, price: int, stock: int, category: string, quantity: int)

  function NewLine(p: Product): CartLine {
    CartLine(p.id, p.name, p.price, p.stock, p.category, 1)
  }

  function Ids(cart: seq<CartLine>): (ids: seq<ProductId>)
    ensures |ids| == |cart|
    ensures forall i :: 0 <= i < |cart| ==> ids[i] == cart[i].id
  {
    seq(|cart|, i requires 0 <= i < |cart| => cart[i].id)
  }

  /** No two lines are for the same product. */
  predicate UniqueIds(cart: seq<CartLine>) {
    Distinct(Ids(cart))
  }

  /** `cart.find(item => item.id === id)`, as the position of the first such line. */
  function FindLine(cart: seq<CartLine>, id: ProductId): (k: Option<nat>)
    ensures k.Some? ==> k.value < |cart| && cart[k.value].id == id
    ensures k.Some? ==> forall j :: 0 <= j < k.value ==> cart[j].id != id
    ensures k.None? <==> forall j :: 0 <= j < |cart| ==> cart[j].id != id
  {
    FirstIndex(cart, (l: CartLine) => l.id == id)
  }

  function Incremented(cart: seq<CartLine>, id: ProductId): (r: seq<CartLine>) {
    seq(|cart|, i requires 0 <= i < |cart| =>
      if cart[i].id == id then cart[i].(quantity := cart[i].quantity + 1) else cart[i])
  }

  function Max(a: int, b: int): int { if a < b then b else a }

  function Decremented(cart: seq<CartLine>, id: ProductId): (r: seq<CartLine>) {
    seq(|cart|, i requires 0 <= i < |cart| =>
      if cart[i].id == id then cart[i].(quantity := Max(0, cart[i].quantity - 1)) else cart[i])
  }

  function WithQuantity(cart: seq<CartLine>, id: ProductId, q: int): (r: seq<CartLine>) {
    seq(|cart|, i requires 0 <= i < |cart| =>
      if cart[i].id == id then cart[i].(quantity := q) else cart[i])
  }

  predicate Positive(l: CartLine) { l.quantity > 0 }

  function OtherThan(id: ProductId): CartLine -> bool {
    (l: CartLine) => l.id != id
  }

  /** `addToCart(product)`. */
  function AddToCart(cart: seq<CartLine>, product: Product): (r: seq<CartLine>)
    ensures Ids(r) == Ids(cart) || Ids(r) == Ids(cart) + [product.id]
  {
    if product.stock <= 0 then cart
    else match FindLine(cart, product.id)
      case Some(k) =>
        if cart[k].quantity >= product.stock then cart else Incremented(cart, product.id)
      case None =>
        assert Ids(cart + [NewLine(product)]) == Ids(cart) + [product.id];
        cart + [NewLine(product)]
  }

  /** `removeFromCart(productId)`: one fewer of that product, dropping lines that reach 0. */
  function RemoveFromCart(cart: seq<CartLine>, id: ProductId): (r: seq<CartLine>)
    ensures forall i :: 0 <= i < |r| ==> r[i].quantity > 0
  {
    Filter(Decremented(cart, id), Positive)
  }

  /** `updateCartQuantity(productId, newQuantity)`, checked against the loaded `products`.
      When no loaded product has the id, `product.stock` throws before the cart is touched. */
  function UpdateCartQuantity(cart: seq<CartLine>, products: seq<Product>, id: ProductId, newQuantity: int): (r: seq<CartLine>)
    ensures |r| <= |cart|
    ensures forall i :: 0 <= i < |r| && r[i].id != id ==> r[i] in cart
    ensures forall i :: 0 <= i < |r| && r[i].id == id && r[i] !in cart ==> r[i].quantity == newQuantity
  {
    match FindProduct(products, id)
    case None => cart
    case Some(p) =>
      if newQuantity > p.stock then cart
      else if newQuantity == 0 then Filter(cart, OtherThan(id))
      else WithQuantity(cart, id, newQuantity)
  }

  /** `clearCart()`. */
  function ClearCart(): (r: seq<CartLine>)
    ensures |r| == 0 && Total(r) == 0
  {
    []
  }

  function LineTotal(l: CartLine): int { l.price * l.quantity }

  /** `calculateTotal()`: `cart.reduce((total, item) => total + item.price * item.quantity, 0)`,
      folded from the left as `reduce` does. */
  function Total(cart: seq<CartLine>): (t: int)
    ensures (forall i :: 0 <= i < |cart| ==> cart[i].price >= 0 && cart[i].quantity >= 0) ==> t >= 0
  {
    if cart == [] then 0 else Total(cart[..|cart| - 1]) + LineTotal(cart[|cart| - 1])
  }

  /** Every line is for a loaded product and asks for no more than that product's stock. */
  predicate WithinStock(cart: seq<CartLine>, products: seq<Product>) {
    forall i :: 0 <= i < |cart| ==>
      FindProduct(products, cart[i].id).Some? && cart[i].quantity <= FindProduct(products, cart[i].id).value.stock
  }

  /** What the cart editors maintain: one line per product, positive quantities, within stock. */
  predicate WellFormed(cart: seq<CartLine>, products: seq<Product>) {
    && UniqueIds(cart)
    && (forall i :: 0 <= i < |cart| ==> cart[i].quantity > 0)
    && WithinStock(cart, products)
  }

  // ----- helpers about unique ids and totals -----

  /** With unique ids, the line at `k` is the only line for its product. */
  lemma OnlyLine(cart: seq<CartLine>, k: nat)
    requires UniqueIds(cart) && k < |cart|
    ensures forall j :: 0 <= j < |cart| && j != k ==> cart[j].id != cart[k].id
  {
    forall j | 0 <= j < |cart| && j != k ensures cart[j].id != cart[k].id {
      assert Ids(cart)[j] == cart[j].id && Ids(cart)[k] == cart[k].id;
    }
  }

  lemma IdsOfSubsequence(r: seq<CartLine>, cart: seq<CartLine>)
    requires IsSubsequence(r, cart)
    ensures IsSubsequence(Ids(r), Ids(cart))
  {
    var idx :| Embeds(r, cart, idx);
    assert Embeds(Ids(r), Ids(cart), idx);
  }

  lemma {:induction false} TotalAppend(a: seq<CartLine>, b: seq<CartLine>)
    ensures Total(a + b) == Total(a) + Total(b)
    decreases |b|
  {
    if b == [] {
      assert a + b == a;
    } else {
      var c := b[..|b| - 1];
      assert (a + b)[..|a + b| - 1] == a + c;
      assert (a + b)[|a + b| - 1] == b[|b| - 1];
      TotalAppend(a, c);
    }
  }

  /** The total splits around any line. */
  lemma TotalSplit(cart: seq<CartLine>, k: nat)
    requires k < |cart|
    ensures Total(cart) == Total(cart[..k]) + LineTotal(cart[k]) + Total(cart[k + 1..])
  {
    var a, x, b := cart[..k], [cart[k]], cart[k + 1..];
    assert cart == (a + x) + b;
    TotalAppend(a + x, b);
    TotalAppend(a, x);
    TotalSingle(cart[k]);
  }

  /** Replacing one line changes the total by the difference of the two line totals. */
  lemma TotalReplace(cart: seq<CartLine>, k: nat, l: CartLine)
    requires k < |cart|
    ensures Total(cart[k := l]) == Total(cart) - LineTotal(cart[k]) + LineTotal(l)
  {
    var r := cart[k := l];
    assert r[..k] == cart[..k] && r[k + 1..] == cart[k + 1..];
    TotalSplit(cart, k);
    TotalSplit(r, k);
  }

  /** One unit more or less changes a line total by one unit price. */
  lemma LineTotalStep(l: CartLine)
    ensures LineTotal(l.(quantity := l.quantity + 1)) == LineTotal(l) + l.price
    ensures LineTotal(l.(quantity := l.quantity - 1)) == LineTotal(l) - l.price
    ensures l.quantity == 1 ==> LineTotal(l) == l.price
  {
    assert l.price * (l.quantity + 1) == l.price * l.quantity + l.price;
    assert l.price * (l.quantity - 1) == l.price * l.quantity - l.price;
  }

  lemma TotalSingle(l: CartLine)
    ensures Total([l]) == LineTotal(l)
  {
    assert [l][..0] == [];
  }

  /** Deleting one line takes its line total off the total. */
  lemma TotalDelete(cart: seq<CartLine>, k: nat)
    requires k < |cart|
    ensures Total(cart[..k] + cart[k + 1..]) == Total(cart) - LineTotal(cart[k])
  {
    TotalSplit(cart, k);
    TotalAppend(cart[..k], cart[k + 1..]);
  }

  /** Under unique ids, mapping over the lines with `id` touches exactly the line at `k`. */
  lemma MapsTouchOneLine(cart: seq<CartLine>, k: nat, q: int)
    requires UniqueIds(cart) && k < |cart|
    ensures Incremented(cart, cart[k].id) == cart[k := cart[k].(quantity := cart[k].quantity + 1)]
    ensures Decremented(cart, cart[k].id) == cart[k := cart[k].(quantity := Max(0, cart[k].quantity - 1))]
    ensures WithQuantity(cart, cart[k].id, q) == cart[k := cart[k].(quantity := q)]
  {
    OnlyLine(cart, k);
  }

  /** Under unique ids, dropping the lines for `cart[k].id` deletes exactly position `k`. */
  lemma FilterDropsOneLine(cart: seq<CartLine>, k: nat)
    requires UniqueIds(cart) && k < |cart|
    ensures Filter(cart, OtherThan(cart[k].id)) == cart[..k] + cart[k + 1..]
  {
    OnlyLine(cart, k);
    var keep := OtherThan(cart[k].id);
    var a, x, b := cart[..k], [cart[k]], cart[k + 1..];
    assert cart == a + (x + b);
    forall i | 0 <= i < |a| ensures keep(a[i]) {
      assert a[i] == cart[i];
    }
    forall i | 0 <= i < |b| ensures keep(b[i]) {
      assert b[i] == cart[k + 1 + i];
    }
    FilterDropsOne(cart[k], keep);
    FilterConcat(a, x + b, keep);
    FilterConcat(x, b, keep);
    FilterKeepsAll(a, keep);
    FilterKeepsAll(b, keep);
  }

  lemma NotInIds(cart: seq<CartLine>, id: ProductId)
    requires id !in Ids(cart)
    ensures forall i :: 0 <= i < |cart| ==> cart[i].id != id
  {
    forall i | 0 <= i < |cart| ensures cart[i].id != id {
      assert Ids(cart)[i] == cart[i].id;
    }
  }

  /** A line missing from the cart is touched by none of the maps. */
  lemma MapsTouchNothing(cart: seq<CartLine>, id: ProductId, q: int)
    requires id !in Ids(cart)
    ensures Incremented(cart, id) == cart && Decremented(cart, id) == cart
    ensures WithQuantity(cart, id, q) == cart
    ensures Filter(cart, OtherThan(id)) == cart
  {
    NotInIds(cart, id);
    FilterKeepsAll(cart, OtherThan(id));
  }

  // ----- addToCart -----

  /** The four ways `addToCart` treats a product, given one line per product. */
  lemma AddToCartCases(cart: seq<CartLine>, product: Product)
    requires UniqueIds(cart)
    ensures product.stock <= 0 ==> AddToCart(cart, product) == cart
    ensures forall k :: 0 <= k < |cart| && cart[k].id == product.id && product.stock > 0 ==>
      AddToCart(cart, product) ==
        if cart[k].quantity >= product.stock then cart
        else cart[k := cart[k].(quantity := cart[k].quantity + 1)]
    ensures product.stock > 0 && product.id !in Ids(cart) ==>
      AddToCart(cart, product) == cart + [NewLine(product)]
  {
    forall k | 0 <= k < |cart| && cart[k].id == product.id && product.stock > 0
      ensures AddToCart(cart, product) ==
        if cart[k].quantity >= product.stock then cart
        else cart[k := cart[k].(quantity := cart[k].quantity + 1)]
    {
      OnlyLine(cart, k);
      assert FindLine(cart, product.id) == Some(k);
      MapsTouchOneLine(cart, k, 0);
    }
    if product.stock > 0 && product.id !in Ids(cart) {
      NotInIds(cart, product.id);
    }
  }

  /** `addToCart` keeps the ids unique. */
  lemma AddToCartKeepsIdsUnique(cart: seq<CartLine>, product: Product)
    requires UniqueIds(cart)
    ensures UniqueIds(AddToCart(cart, product))
  {
    var r := AddToCart(cart, product);
    if Ids(r) != Ids(cart) {
      assert FindLine(cart, product.id).None?;
      assert Ids(r) == Ids(cart) + [product.id];
    }
  }

  /** `addToCart` on a loaded product keeps the cart well formed (its stock guard at work). */
  lemma AddToCartPreserves(cart: seq<CartLine>, products: seq<Product>, product: Product)
    requires WellFormed(cart, products)
    requires FindProduct(products, product.id) == Some(product)
    ensures WellFormed(AddToCart(cart, product), products)
  {
    if product.stock > 0 {
      match FindLine(cart, product.id)
      case Some(k) =>
        if cart[k].quantity < product.stock {
          MapsTouchOneLine(cart, k, 0);
          WellFormedSetQuantity(cart, products, k, cart[k].quantity + 1);
        }
      case None =>
        WellFormedAppend(cart, products, product);
    }
  }

  /** An accepted add raises the total by one unit price of that product's line. */
  lemma AddToCartTotal(cart: seq<CartLine>, product: Product)
    requires UniqueIds(cart)
    ensures forall k :: 0 <= k < |cart| && cart[k].id == product.id && 0 < product.stock && cart[k].quantity < product.stock ==>
      Total(AddToCart(cart, product)) == Total(cart) + cart[k].price
    ensures product.stock > 0 && product.id !in Ids(cart) ==>
      Total(AddToCart(cart, product)) == Total(cart) + product.price
  {
    forall k | 0 <= k < |cart| && cart[k].id == product.id && 0 < product.stock && cart[k].quantity < product.stock
      ensures Total(AddToCart(cart, product)) == Total(cart) + cart[k].price
    {
      AddToCartTotalAt(cart, product, k);
    }
    if product.stock > 0 && product.id !in Ids(cart) {
      AddToCartTotalNew(cart, product);
    }
  }

  lemma AddToCartTotalNew(cart: seq<CartLine>, product: Product)
    requires product.stock > 0 && product.id !in Ids(cart)
    ensures Total(AddToCart(cart, product)) == Total(cart) + product.price
  {
    NotInIds(cart, product.id);
    assert AddToCart(cart, product) == cart + [NewLine(product)];
    TotalAppend(cart, [NewLine(product)]);
    TotalSingle(NewLine(product));
    assert LineTotal(NewLine(product)) == product.price;
  }

  lemma AddToCartTotalAt(cart: seq<CartLine>, product: Product, k: nat)
    requires UniqueIds(cart) && k < |cart| && cart[k].id == product.id
    requires 0 < product.stock && cart[k].quantity < product.stock
    ensures Total(AddToCart(cart, product)) == Total(cart) + cart[k].price
  {
    OnlyLine(cart, k);
    assert FindLine(cart, product.id) == Some(k);
    MapsTouchOneLine(cart, k, 0);
    var l := cart[k].(quantity := cart[k].quantity + 1);
    assert AddToCart(cart, product) == cart[k := l];
    TotalReplace(cart, k, l);
    LineTotalStep(cart[k]);
  }

  // ----- removeFromCart -----

  lemma RemoveFromCartAt(cart: seq<CartLine>, k: nat)
    requires UniqueIds(cart) && k < |cart|
    requires forall i :: 0 <= i < |cart| ==> cart[i].quantity > 0
    ensures RemoveFromCart(cart, cart[k].id) ==
      if cart[k].quantity > 1 then cart[k := cart[k].(quantity := cart[k].quantity - 1)]
      else cart[..k] + cart[k + 1..]
  {
    MapsTouchOneLine(cart, k, 0);
    var l := cart[k].(quantity := Max(0, cart[k].quantity - 1));
    var d := cart[k := l];
    if cart[k].quantity > 1 {
      FilterKeepsAll(d, Positive);
    } else {
      var a, x, b := cart[..k], [l], cart[k + 1..];
      assert d == a + (x + b);
      FilterDropsOne(l, Positive);
      FilterConcat(a, x + b, Positive);
      FilterConcat(x, b, Positive);
      FilterKeepsAll(a, Positive);
      FilterKeepsAll(b, Positive);
    }
  }

  /** Given one line per product and positive quantities, `removeFromCart` takes one unit off
      the product's line, deletes the line when that was its last unit, and changes nothing
      else; an absent product leaves the cart as it was. */
  lemma RemoveFromCartEffect(cart: seq<CartLine>, id: ProductId)
    requires UniqueIds(cart)
    requires forall i :: 0 <= i < |cart| ==> cart[i].quantity > 0
    ensures id !in Ids(cart) ==> RemoveFromCart(cart, id) == cart
    ensures forall k :: 0 <= k < |cart| && cart[k].id == id ==>
      RemoveFromCart(cart, id) ==
        if cart[k].quantity > 1 then cart[k := cart[k].(quantity := cart[k].quantity - 1)]
        else cart[..k] + cart[k + 1..]
  {
    if id !in Ids(cart) {
      MapsTouchNothing(cart, id, 0);
      FilterKeepsAll(cart, Positive);
    }
    forall k | 0 <= k < |cart| && cart[k].id == id
      ensures RemoveFromCart(cart, id) ==
        if cart[k].quantity > 1 then cart[k := cart[k].(quantity := cart[k].quantity - 1)]
        else cart[..k] + cart[k + 1..]
    {
      RemoveFromCartAt(cart, k);
    }
  }

  /** For any cart, `removeFromCart` keeps the surviving lines in order, keeps ids unique, and
      leaves every line for another product as it was (dropping only non-positive ones). */
  lemma RemoveFromCartKeepsOrder(cart: seq<CartLine>, id: ProductId)
    ensures IsSubsequence(Ids(RemoveFromCart(cart, id)), Ids(cart))
    ensures UniqueIds(cart) ==> UniqueIds(RemoveFromCart(cart, id))
    ensures forall i :: 0 <= i < |RemoveFromCart(cart, id)| && RemoveFromCart(cart, id)[i].id != id ==>
      RemoveFromCart(cart, id)[i] in cart
    ensures forall i :: 0 <= i < |cart| && cart[i].id != id && cart[i].quantity > 0 ==>
      cart[i] in RemoveFromCart(cart, id)
  {
    var d := Decremented(cart, id);
    FilterIsSubsequence(d, Positive);
    IdsOfSubsequence(Filter(d, Positive), d);
    assert Ids(d) == Ids(cart);
    if UniqueIds(cart) {
      SubsequenceOfDistinct(Ids(Filter(d, Positive)), Ids(d));
    }
    var r := RemoveFromCart(cart, id);
    forall i | 0 <= i < |r| && r[i].id != id ensures r[i] in cart {
      var j :| 0 <= j < |d| && d[j] == r[i];
    }
    forall i | 0 <= i < |cart| && cart[i].id != id && cart[i].quantity > 0 ensures cart[i] in r {
      assert d[i] == cart[i];
    }
  }

  lemma RemoveFromCartPreserves(cart: seq<CartLine>, products: seq<Product>, id: ProductId)
    requires WellFormed(cart, products)
    ensures WellFormed(RemoveFromCart(cart, id), products)
  {
    if id !in Ids(cart) {
      MapsTouchNothing(cart, id, 0);
      FilterKeepsAll(cart, Positive);
    } else {
      var k :| 0 <= k < |cart| && Ids(cart)[k] == id;
      RemoveFromCartAt(cart, k);
      if cart[k].quantity > 1 {
        WellFormedSetQuantity(cart, products, k, cart[k].quantity - 1);
      } else {
        WellFormedDelete(cart, products, k);
      }
    }
  }

  /** Removing one unit of a product in the cart takes one unit price off the total. */
  lemma RemoveFromCartTotal(cart: seq<CartLine>, id: ProductId)
    requires UniqueIds(cart)
    requires forall i :: 0 <= i < |cart| ==> cart[i].quantity > 0
    ensures forall k :: 0 <= k < |cart| && cart[k].id == id ==>
      Total(RemoveFromCart(cart, id)) == Total(cart) - cart[k].price
  {
    forall k | 0 <= k < |cart| && cart[k].id == id
      ensures Total(RemoveFromCart(cart, id)) == Total(cart) - cart[k].price
    {
      RemoveFromCartTotalAt(cart, k);
    }
  }

  lemma RemoveFromCartTotalAt(cart: seq<CartLine>, k: nat)
    requires UniqueIds(cart) && k < |cart|
    requires forall i :: 0 <= i < |cart| ==> cart[i].quantity > 0
    ensures Total(RemoveFromCart(cart, cart[k].id)) == Total(cart) - cart[k].price
  {
    RemoveFromCartAt(cart, k);
    var r := RemoveFromCart(cart, cart[k].id);
    if cart[k].quantity > 1 {
      var l := cart[k].(quantity := cart[k].quantity - 1);
      assert r == cart[k := l];
      TotalReplace(cart, k, l);
      LineTotalStep(cart[k]);
    } else {
      assert r == cart[..k] + cart[k + 1..];
      TotalDelete(cart, k);
      LineTotalStep(cart[k]);
    }
  }

  // ----- updateCartQuantity -----

  /** Given one line per product: an unknown product or a quantity above its loaded stock
      leaves the cart unchanged; 0 deletes exactly that product's line; any other quantity
      replaces that line's quantity and nothing else. */
  lemma UpdateCartQuantityEffect(cart: seq<CartLine>, products: seq<Product>, id: ProductId, q: int)
    requires UniqueIds(cart)
    ensures FindProduct(products, id).None? ==> UpdateCartQuantity(cart, products, id, q) == cart
    ensures FindProduct(products, id).Some? && q > FindProduct(products, id).value.stock ==>
      UpdateCartQuantity(cart, products, id, q) == cart
    ensures id !in Ids(cart) ==> UpdateCartQuantity(cart, products, id, q) == cart
    ensures FindProduct(products, id).Some? && q <= FindProduct(products, id).value.stock ==>
      forall k :: 0 <= k < |cart| && cart[k].id == id ==>
        UpdateCartQuantity(cart, products, id, q) ==
          if q == 0 then cart[..k] + cart[k + 1..] else cart[k := cart[k].(quantity := q)]
  {
    if id !in Ids(cart) {
      MapsTouchNothing(cart, id, q);
    }
    forall k | 0 <= k < |cart| && cart[k].id == id
      ensures WithQuantity(cart, id, q) == cart[k := cart[k].(quantity := q)]
      ensures Filter(cart, OtherThan(id)) == cart[..k] + cart[k + 1..]
    {
      MapsTouchOneLine(cart, k, q);
      FilterDropsOneLine(cart, k);
    }
  }

  /** For any cart, `updateCartQuantity` keeps the lines it keeps in order and keeps ids
      unique. */
  lemma UpdateCartQuantityKeepsOrder(cart: seq<CartLine>, products: seq<Product>, id: ProductId, q: int)
    ensures IsSubsequence(Ids(UpdateCartQuantity(cart, products, id, q)), Ids(cart))
    ensures UniqueIds(cart) ==> UniqueIds(UpdateCartQuantity(cart, products, id, q))
  {
    var r := UpdateCartQuantity(cart, products, id, q);
    if r == Filter(cart, OtherThan(id)) {
      FilterIsSubsequence(cart, OtherThan(id));
      IdsOfSubsequence(r, cart);
    } else {
      assert Ids(r) == Ids(cart);
      assert Embeds(Ids(r), Ids(cart), seq(|cart|, i requires 0 <= i < |cart| => i));
    }
    if UniqueIds(cart) {
      SubsequenceOfDistinct(Ids(r), Ids(cart));
    }
  }

  /** `updateCartQuantity` with a non-negative quantity keeps the cart well formed. */
  lemma UpdateCartQuantityPreserves(cart: seq<CartLine>, products: seq<Product>, id: ProductId, q: int)
    requires WellFormed(cart, products) && q >= 0
    ensures WellFormed(UpdateCartQuantity(cart, products, id, q), products)
  {
    var r := UpdateCartQuantity(cart, products, id, q);
    if FindProduct(products, id).Some? && q <= FindProduct(products, id).value.stock {
      if id !in Ids(cart) {
        MapsTouchNothing(cart, id, q);
        assert r == cart;
      } else {
        var k :| 0 <= k < |cart| && Ids(cart)[k] == id;
        if q == 0 {
          FilterDropsOneLine(cart, k);
          WellFormedDelete(cart, products, k);
        } else {
          MapsTouchOneLine(cart, k, q);
          WellFormedSetQuantity(cart, products, k, q);
        }
      }
    }
  }

  // ----- the cart invariant under single-line changes -----

  lemma WellFormedDelete(cart: seq<CartLine>, products: seq<Product>, k: nat)
    requires WellFormed(cart, products) && k < |cart|
    ensures WellFormed(cart[..k] + cart[k + 1..], products)
  {
    var r := cart[..k] + cart[k + 1..];
    DeletionIsSubsequence(cart, k);
    IdsOfSubsequence(r, cart);
    SubsequenceOfDistinct(Ids(r), Ids(cart));
    assert forall i :: 0 <= i < |r| ==> r[i] == cart[if i < k then i else i + 1];
  }

  lemma WellFormedSetQuantity(cart: seq<CartLine>, products: seq<Product>, k: nat, q: int)
    requires WellFormed(cart, products) && k < |cart|
    requires 0 < q && q <= FindProduct(products, cart[k].id).value.stock
    ensures WellFormed(cart[k := cart[k].(quantity := q)], products)
  {
    var r := cart[k := cart[k].(quantity := q)];
    assert Ids(r) == Ids(cart);
  }

  lemma WellFormedAppend(cart: seq<CartLine>, products: seq<Product>, product: Product)
    requires WellFormed(cart, products)
    requires FindProduct(products, product.id) == Some(product) && product.stock > 0
    requires forall j :: 0 <= j < |cart| ==> cart[j].id != product.id
    ensures WellFormed(cart + [NewLine(product)], products)
  {
    var r := cart + [NewLine(product)];
    assert Ids(r) == Ids(cart) + [product.id];
    assert forall i :: 0 <= i < |cart| ==> r[i] == cart[i];
  }
}
