/** `handleSaleComplete`: the page's checkout, run against the three stores it writes to. */
module Checkout {
  import opened Wrappers
  import opened Catalog
  import opened Cart
  import opened Sales
  import opened Inventory
  import opened Customers

  /** The product, customer and sale stores, as far as the checkout reads and writes them:
      the stored stock of each product, the customer records in the order a search by name
      lists them, and the sale records in creation order. */
  class Stores {
    var stock: map<ProductId, int>
    var customers: seq<Customer>
    var sales: seq<Sale>

    constructor (stock: map<ProductId, int>, customers: seq<Customer>, sales: seq<Sale>)
      ensures this.stock == stock && this.customers == customers && this.sales == sales
    {
      this.stock := stock;
      this.customers := customers;
      this.sales := sales;
    }

    /** Completes the sale of `cart`. `products` is the product list the page loaded earlier,
        `receiptNumber` stands for `REC-${Date.now()}` and `today` for the ISO date of the
        clock. The sale is recorded first; then each line's stock is written from `products`;
        then the customer is upserted. A line whose product is not in `products` makes
        `product.stock` throw: the catch block ends the checkout there, keeping the sale and
        the stock already written, skipping the customer and leaving the cart as it was.
        `completed` tells the two outcomes apart and `cartAfter` is the page's cart. */
    method CompleteSale(cart: seq<CartLine>, products: seq<Product>, saleData: SaleData, receiptNumber: string, today: string)
      returns (completed: bool, cartAfter: seq<CartLine>)
      modifies this
      ensures sales == old(sales) + [MakeSale(cart, saleData, receiptNumber)]
      ensures stock == Restock(old(stock), cart, products).stock
      ensures completed == Restock(old(stock), cart, products).finished
      ensures customers ==
        if completed then UpsertCustomer(old(customers), saleData.customerName, saleData.customerPhone, Total(cart), today)
        else old(customers)
      ensures cartAfter == if completed then ClearCart() else cart
    {
      sales := sales + [MakeSale(cart, saleData, receiptNumber)];
      completed := WriteStock(cart, products);
      if !completed {
        return false, cart;
      }
      if saleData.customerName != "" {
        RecordVisit(saleData.customerName, saleData.customerPhone, Total(cart), today);
      }
      cartAfter := ClearCart();
    }

    /** The inventory loop: for each line in turn, the product's stored stock becomes the
        loaded stock minus the line quantity; stops early, with `finished` false, at a line
        whose product is not loaded. */
    method WriteStock(cart: seq<CartLine>, products: seq<Product>) returns (finished: bool)
      modifies this`stock
      ensures stock == Restock(old(stock), cart, products).stock
      ensures finished == Restock(old(stock), cart, products).finished
    {
      var i := 0;
      assert cart[i..] == cart;
      while i < |cart|
        invariant 0 <= i <= |cart|
        invariant Restock(stock, cart[i..], products) == Restock(old(stock), cart, products)
      {
        var line := cart[i];
        var product := FindProduct(products, line.id);
        if product.None? {
          RestockStopsAt(stock, cart, products, i);
          return false;
        }
        RestockStepAt(stock, cart, products, i, product.value);
        stock := stock[line.id := product.value.stock - line.quantity];
        i := i + 1;
      }
      assert cart[i..] == [];
      finished := true;
    }

    /** The customer update for a named customer: the first customer with exactly that name
        gains the purchase and a visit, or a new customer is created. */
    method RecordVisit(name: string, phone: string, total: int, today: string)
      requires name != ""
      modifies this`customers
      ensures customers == UpsertCustomer(old(customers), name, phone, total, today)
    {
      var existing := FindCustomer(customers, name);
      if existing.Some? {
        customers := customers[existing.value := Visited(customers[existing.value], total, today)];
      } else {
        customers := customers + [NewCustomer(name, phone, total, today)];
      }
    }
  }

  /** A checkout of 3 units of a product with a loaded stock of 5, at 10.00 each, for a new
      customer "Ana": the sale totals 30.00, the stock becomes 2 and "Ana" is created. */
  method FirstSaleScenario() {
    var p := Product("P1", "Cafe", 1000, 5, "bebidas");
    var stores := new Stores(map["P1" := 5], [], []);
    var cart := AddToCart(AddToCart(AddToCart(ClearCart(), p), p), p);
    assert cart == [CartLine("P1", "Cafe", 1000, 5, "bebidas", 3)];
    assert Total(cart) == 3000 by { TotalSingle(cart[0]); }
    assert FindProduct([p], "P1") == Some(p);
    var done, cartAfter := stores.CompleteSale(cart, [p], SaleData("efectivo", "Ana", ""), "REC-1", "2024-05-01");
    assert done && cartAfter == [];
    assert stores.stock == map["P1" := 2] by {
      assert cart[1..] == [];
      assert map["P1" := 5]["P1" := 2] == map["P1" := 2];
    }
    assert stores.sales[0].totalAmount == 3000;
    assert stores.customers == [Customer("Ana", "", Some(3000), Some(1), "2024-05-01")];
  }

  /** "Ana" already holds 30.00 over one visit; a checkout of 15.00 brings her to 45.00 over two
      visits and moves her last purchase date. */
  method ReturningCustomerScenario() {
    var ana := Customer("Ana", "555-0101", Some(3000), Some(1), "2024-05-01");
    var q := Product("P2", "Pan", 500, 10, "panaderia");
    var stores := new Stores(map["P2" := 10], [ana], []);
    var cart := [CartLine("P2", "Pan", 500, 10, "panaderia", 3)];
    assert Total(cart) == 1500 by { TotalSingle(cart[0]); }
    assert FindProduct([q], "P2") == Some(q);
    assert cart[1..] == [];
    var done, cartAfter := stores.CompleteSale(cart, [q], SaleData("tarjeta", "Ana", ""), "REC-2", "2024-05-02");
    assert done;
    assert stores.customers == [Customer("Ana", "555-0101", Some(4500), Some(2), "2024-05-02")];
  }
}
