/** The inventory part of `handleSaleComplete`: for each cart line in turn, the product's stored
    stock is set to the page's loaded stock for that product minus the line quantity. Nothing
    re-reads the stored stock and nothing checks that it suffices. */
module Inventory {
  import opened Wrappers
  import opened Seqs
  import opened Catalog
  import opened Cart

  /** The stored stock after the loop, and whether the loop ran to the end. It stops at the
      first line whose product is not among the loaded products: `product.stock` then throws. */
  datatype StockUpdate = StockUpdate(stock: map<ProductId, int>, finished: bool)

  function Restock(stock: map<ProductId, int>, lines: seq<CartLine>, products: seq<Product>): StockUpdate
    decreases |lines|
  {
    if lines == [] then StockUpdate(stock, true)
    else match FindProduct(products, lines[0].id)
      case None => StockUpdate(stock, false)
      case Some(p) => Restock(stock[lines[0].id := p.stock - lines[0].quantity], lines[1..], products)
  }

  /** One turn of the loop: the first line's stock is written and the rest follows. */
  lemma RestockStep(stock: map<ProductId, int>, lines: seq<CartLine>, products: seq<Product>, p: Product)
    requires lines != [] && FindProduct(products, lines[0].id) == Some(p)
    ensures Restock(stock, lines, products) == Restock(stock[lines[0].id := p.stock - lines[0].quantity], lines[1..], products)
  { }

  /** The loop from position `i` stops there when the line's product is not loaded. */
  lemma RestockStopsAt(stock: map<ProductId, int>, lines: seq<CartLine>, products: seq<Product>, i: nat)
    requires i < |lines| && FindProduct(products, lines[i].id).None?
    ensures Restock(stock, lines[i..], products) == StockUpdate(stock, false)
  {
    assert lines[i..][0] == lines[i];
  }

  /** The loop from position `i` writes the line's stock and goes on from `i + 1`. */
  lemma RestockStepAt(stock: map<ProductId, int>, lines: seq<CartLine>, products: seq<Product>, i: nat, p: Product)
    requires i < |lines| && FindProduct(products, lines[i].id) == Some(p)
    ensures Restock(stock, lines[i..], products)
      == Restock(stock[lines[i].id := p.stock - lines[i].quantity], lines[i + 1..], products)
  {
    assert lines[i..][0] == lines[i] && lines[i..][1..] == lines[i + 1..];
    RestockStep(stock, lines[i..], products, p);
  }

  predicate NonNegative(stock: map<ProductId, int>) {
    forall id :: id in stock ==> stock[id] >= 0
  }

  lemma IdsTail(lines: seq<CartLine>)
    requires lines != []
    ensures Ids(lines) == [lines[0].id] + Ids(lines[1..])
  { }

  lemma UniqueTail(lines: seq<CartLine>)
    requires lines != [] && UniqueIds(lines)
    ensures UniqueIds(lines[1..]) && lines[0].id !in Ids(lines[1..])
  {
    IdsTail(lines);
    forall i, j | 0 <= i < j < |lines[1..]| ensures Ids(lines[1..])[i] != Ids(lines[1..])[j] {
      assert Ids(lines)[i + 1] != Ids(lines)[j + 1];
    }
    forall j | 0 <= j < |lines[1..]| ensures Ids(lines[1..])[j] != lines[0].id {
      assert Ids(lines)[0] != Ids(lines)[j + 1];
    }
  }

  /** The loop runs to the end exactly when every line's product is loaded. */
  lemma {:induction false} RestockFinishes(stock: map<ProductId, int>, lines: seq<CartLine>, products: seq<Product>)
    ensures Restock(stock, lines, products).finished <==>
      forall i :: 0 <= i < |lines| ==> FindProduct(products, lines[i].id).Some?
    decreases |lines|
  {
    if lines != [] {
      match FindProduct(products, lines[0].id)
      case None =>
        assert !(FindProduct(products, lines[0].id).Some?);
      case Some(p) =>
        RestockFinishes(stock[lines[0].id := p.stock - lines[0].quantity], lines[1..], products);
        assert forall i :: 1 <= i < |lines| ==> lines[i] == lines[1..][i - 1];
    }
  }

  /** A product with no line in the cart keeps its stored stock (whether or not the loop ran
      to the end). */
  lemma {:induction false} RestockLeavesOthers(stock: map<ProductId, int>, lines: seq<CartLine>, products: seq<Product>)
    ensures forall id :: id !in Ids(lines) ==>
      && (id in Restock(stock, lines, products).stock <==> id in stock)
      && (id in stock ==> Restock(stock, lines, products).stock[id] == stock[id])
    decreases |lines|
  {
    if lines != [] && FindProduct(products, lines[0].id).Some? {
      var p := FindProduct(products, lines[0].id).value;
      RestockLeavesOthers(stock[lines[0].id := p.stock - lines[0].quantity], lines[1..], products);
      IdsTail(lines);
    }
  }

  /** When the loop runs to the end and the lines are for distinct products, each product in
      the cart ends with its loaded stock minus its line quantity. */
  lemma {:induction false} RestockWrites(stock: map<ProductId, int>, lines: seq<CartLine>, products: seq<Product>)
    requires UniqueIds(lines)
    requires Restock(stock, lines, products).finished
    ensures forall i :: 0 <= i < |lines| ==>
      && FindProduct(products, lines[i].id).Some?
      && lines[i].id in Restock(stock, lines, products).stock
      && Restock(stock, lines, products).stock[lines[i].id]
           == FindProduct(products, lines[i].id).value.stock - lines[i].quantity
    decreases |lines|
  {
    if lines != [] {
      var p := FindProduct(products, lines[0].id).value;
      var next := stock[lines[0].id := p.stock - lines[0].quantity];
      UniqueTail(lines);
      RestockWrites(next, lines[1..], products);
      RestockLeavesOthers(next, lines[1..], products);
      forall i | 0 <= i < |lines|
        ensures && FindProduct(products, lines[i].id).Some?
                && lines[i].id in Restock(stock, lines, products).stock
                && Restock(stock, lines, products).stock[lines[i].id]
                     == FindProduct(products, lines[i].id).value.stock - lines[i].quantity
      {
        if i > 0 {
          assert lines[i] == lines[1..][i - 1];
        }
      }
    }
  }

  /** When a line's product is not loaded, the lines before it have been written and the
      stock is as if the cart had ended there. */
  lemma {:induction false} RestockStopsAtMissing(stock: map<ProductId, int>, lines: seq<CartLine>, products: seq<Product>, n: nat)
    requires n < |lines| && FindProduct(products, lines[n].id).None?
    requires forall j :: 0 <= j < n ==> FindProduct(products, lines[j].id).Some?
    ensures Restock(stock, lines, products) == StockUpdate(Restock(stock, lines[..n], products).stock, false)
    ensures Restock(stock, lines[..n], products).finished
    decreases n
  {
    if n > 0 {
      var p := FindProduct(products, lines[0].id).value;
      var next := stock[lines[0].id := p.stock - lines[0].quantity];
      assert lines[..n][1..] == lines[1..][..n - 1];
      forall j | 0 <= j < n - 1 ensures FindProduct(products, lines[1..][j].id).Some? {
        assert lines[1..][j] == lines[j + 1];
      }
      RestockStopsAtMissing(next, lines[1..], products, n - 1);
    }
  }

  /** If no stored stock was negative and every line asked for at most the loaded stock of its
      product, the loop runs to the end and no stock becomes negative. */
  lemma {:induction false} RestockNonNegative(stock: map<ProductId, int>, lines: seq<CartLine>, products: seq<Product>)
    requires NonNegative(stock)
    requires WithinStock(lines, products)
    ensures Restock(stock, lines, products).finished
    ensures NonNegative(Restock(stock, lines, products).stock)
    decreases |lines|
  {
    if lines != [] {
      var p := FindProduct(products, lines[0].id).value;
      var next := stock[lines[0].id := p.stock - lines[0].quantity];
      assert WithinStock(lines[1..], products) by {
        forall i | 0 <= i < |lines[1..]|
          ensures FindProduct(products, lines[1..][i].id).Some?
          ensures lines[1..][i].quantity <= FindProduct(products, lines[1..][i].id).value.stock
        {
          assert lines[1..][i] == lines[i + 1];
        }
      }
      RestockNonNegative(next, lines[1..], products);
    }
  }

  /** Two checkouts of 3 units each, both from a product list that loaded a stock of 5: the
      second write repeats `5 - 3`, so six units are sold while the stored stock reads 2. Each
      completed sale reloads the product list, so this needs two pages or cashier sessions,
      or a second sale completed before the reload has returned. */
  lemma StaleSnapshotExample()
    ensures
      var p := Product("P1", "Cafe", 1000, 5, "bebidas");
      var line := CartLine("P1", "Cafe", 1000, 5, "bebidas", 3);
      var first := Restock(map["P1" := 5], [line], [p]);
      var second := Restock(first.stock, [line], [p]);
      && first == StockUpdate(map["P1" := 2], true)
      && second == StockUpdate(map["P1" := 2], true)
  {
    var p := Product("P1", "Cafe", 1000, 5, "bebidas");
    var line := CartLine("P1", "Cafe", 1000, 5, "bebidas", 3);
    assert FindProduct([p], "P1") == Some(p);
    assert [line][1..] == [];
    assert map["P1" := 5]["P1" := 2] == map["P1" := 2];
    assert map["P1" := 2]["P1" := 2] == map["P1" := 2];
  }
}
