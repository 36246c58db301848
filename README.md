# Point of sale: cart editing and sale completion

A Dafny model of the non-UI logic of the point-of-sale page `Point_Sale.js`. The cashier
fills a cart from the loaded product list, then completes the sale. Completing a sale does
three things in order: it records a sale, it writes each cart product's stock, and it updates
or creates the customer record.

The model has two parts.

- **Cart editing** is modelled as pure functions over `seq<CartLine>`, as the page's
  `setCart(prev => ...)` updaters are. These are `AddToCart`, `RemoveFromCart`,
  `UpdateCartQuantity`, `ClearCart` and `Total`. The product grid's search and category
  filter is `FilteredProducts`.
- **Sale completion** (`handleSaleComplete`) is modelled as the class `Checkout.Stores`. It
  holds the stored stock (`map<ProductId, int>`), the customers (`seq<Customer>`) and the sales
  (`seq<Sale>`). `CompleteSale` records the sale and then runs `WriteStock`, a loop over the
  cart. Then it runs `RecordVisit`. Each of these is proved against a specification function:
  `MakeSale`, `Restock` and `UpsertCustomer`. Lemmas state what the source promises about those
  functions.

Two client methods, `Checkout.FirstSaleScenario` and `Checkout.ReturningCustomerScenario`,
run `CompleteSale` on concrete data. They check the first sale to a new customer and a
returning customer's checkout: the sale total, the stock written and the customer record.

Modules:

- `Wrappers`: `Option`.
- `Seqs`: the first-match search behind `find`, `filter`, and "is a subsequence of".
- `Catalog`: products, `products.find`, and the filter.
- `Cart`: the cart operations.
- `Sales`: the sale record.
- `Inventory`: the stock loop.
- `Customers`: the customer upsert.
- `Checkout`: the stores and the checkout.

Modelling choices:

- Money is in integer minor units.
- Quantities and stock are unbounded integers. The source does not stop them going negative.
- An empty `customer_name` or `customer_phone` stands for a missing one. JavaScript treats `''`
  and `undefined` alike in `if (...)` and in `|| ''`.
- A customer's `total_purchases` and `visit_count` are `Option<int>`, because `(x || 0)` reads
  a missing one as 0.
- A customer is identified by its position in the store's list. The first customer with
  exactly the given name is the one updated.
- In `updateCartQuantity`, an id with no loaded product makes `product.stock` throw before the
  cart is touched. The model returns the cart unchanged.
- In the stock loop, a cart line whose product is not among the loaded `products` makes
  `product.stock` throw. The `catch` block then ends the checkout. The sale and the stock
  already written stay, the customer is not updated, and the cart is not cleared. `Restock`
  models this with its `finished` flag.

Where this model differs from the system's design description, it follows the code:

- Nothing re-reads the stored stock before writing it.
- The stock written is `loaded stock - quantity`, taken from the page's earlier snapshot. So
  two checkouts from the same snapshot both write `5 - 3` (see
  `Inventory.StaleSnapshotExample`). A completed sale reloads the products (`loadData()`,
  Point_Sale.js:146), so this takes two pages or cashier sessions, or a second sale completed
  before the reload returns. A line asking for more than the loaded stock is written as a
  negative stock.
- No error is typed, no `InsufficientStock` is raised, and nothing is rolled back.

## Model

| member | source | states |
|---|---|---|
| `Seqs.FirstIndex` | Point_Sale.js:50 | the first position whose element satisfies the test; none exactly when no element does (the search behind every `find` here) |
| `Seqs.Filter` | Point_Sale.js:70 | the kept elements come from the input and pass the test, and every passing element is kept; `FilterIsSubsequence` and `FilterMultiset` add order and multiplicity |
| `Catalog.FindProduct` | Point_Sale.js:75 | the result is a loaded product with that id; none exactly when no loaded product has the id |
| `Catalog.FindProductFirst` | Point_Sale.js:118 | the product found is the one at the first position holding the id |
| `Catalog.Lower` | Point_Sale.js:158 | same length, each character ASCII lower-cased, and no upper-case letter left |
| `Catalog.Includes` | Point_Sale.js:158 | a term longer than the text is never included; the empty term always is; a term as long as the text is included exactly when equal; `IncludesIffOccurs` characterises it |
| `Catalog.FindProductIsFirstIndex` | Point_Sale.js:75 | `find` returns the element at the position the generic first-match search finds |
| `Catalog.IncludesIffOccurs` | Point_Sale.js:158 | `s.includes(t)` holds exactly when `t` occurs in `s` at some position |
| `Catalog.FilteredProducts` | Point_Sale.js:157-161 | no longer than the loaded list, and every listed product is loaded and shown for the search and tab; `FilteredProductsSpec` gives the converse |
| `Catalog.FilteredProductsSpec` | Point_Sale.js:157-161 | a product is listed exactly when it is loaded, its lower-cased name contains the lower-cased search term, and the tab is "todos" or its category; the listing keeps the loaded order, and a shown product appears as many times as it was loaded |
| `Catalog.EmptySearchShowsAll` | Point_Sale.js:157-161 | with an empty search and the "todos" tab the listing is the whole product list |
| `Cart.FindLine` | Point_Sale.js:50 | the position of the first line with the id; none exactly when no line has it |
| `Cart.AddToCart` | Point_Sale.js:46-62 | the product ids of the cart stay as they were or gain the product's id at the end |
| `Cart.AddToCartCases` | Point_Sale.js:46-62 | no change when stock <= 0; no change when the product's line already holds >= stock; otherwise only that line goes up by 1; a product not in the cart is appended with quantity 1 |
| `Cart.AddToCartKeepsIdsUnique` | Point_Sale.js:50-59 | no two lines share a product id afterwards if none did before |
| `Cart.AddToCartPreserves` | Point_Sale.js:47-59 | adding a loaded product keeps ids unique, quantities positive and every line within its loaded stock |
| `Cart.AddToCartTotal` | Point_Sale.js:46-62 | an accepted add raises the total by the line's unit price (or the product's price for a new line) |
| `Cart.RemoveFromCart` | Point_Sale.js:64-72 | every remaining line has a positive quantity |
| `Cart.RemoveFromCartEffect` | Point_Sale.js:64-72 | with unique ids and positive quantities: the product's line loses one unit, or is deleted if it had one; other lines unchanged; an absent product changes nothing |
| `Cart.RemoveFromCartKeepsOrder` | Point_Sale.js:64-71 | kept lines stay in order; unique ids stay unique; lines for other products are kept as they were unless not positive |
| `Cart.RemoveFromCartPreserves` | Point_Sale.js:64-71 | keeps ids unique, quantities positive and lines within stock |
| `Cart.RemoveFromCartTotal` | Point_Sale.js:64-72 | removing a product in the cart lowers the total by its unit price |
| `Cart.UpdateCartQuantity` | Point_Sale.js:74-87 | the cart never grows; a line for another product is one of the old lines; a changed line for the product carries the new quantity; `UpdateCartQuantityEffect`, `UpdateCartQuantityKeepsOrder` and `UpdateCartQuantityPreserves` give the cases |
| `Cart.UpdateCartQuantityEffect` | Point_Sale.js:74-87 | unknown product or quantity above its loaded stock: no change; 0: exactly that line is deleted; otherwise only that line's quantity becomes the new one |
| `Cart.UpdateCartQuantityKeepsOrder` | Point_Sale.js:78-86 | kept lines stay in order and unique ids stay unique |
| `Cart.UpdateCartQuantityPreserves` | Point_Sale.js:74-87 | a non-negative new quantity keeps ids unique, quantities positive and lines within stock |
| `Cart.ClearCart` | Point_Sale.js:89-91 | the cleared cart is empty and totals 0 |
| `Cart.Total` | Point_Sale.js:93-95 | a cart of non-negative prices and quantities totals at least 0; `TotalAppend`, `AddToCartTotal` and `RemoveFromCartTotal` relate totals across edits |
| `Cart.TotalAppend` | Point_Sale.js:93-95 | the `reduce` total of two carts joined is the sum of their totals |
| `Sales.SaleItems` | Point_Sale.js:101-107 | one item per cart line, in cart order, with the line's product id and quantity; `MakeSale` states every field |
| `Sales.SaleTotalMatchesItems` | Point_Sale.js:101-112 | the cart total equals the sum of the sale items' `total_price` |
| `Sales.MakeSale` | Point_Sale.js:101-114 | one item per cart line in cart order copying id, name, quantity and unit price, with `total_price = price * quantity`; `total_amount` is the sum of the items' totals; receipt and sale data as given |
| `Inventory.Restock` | Point_Sale.js:117-122 | no ensures of its own; specified by `RestockFinishes`, `RestockLeavesOthers`, `RestockWrites`, `RestockStopsAtMissing` and `RestockNonNegative` give what is written |
| `Inventory.RestockFinishes` | Point_Sale.js:117-122 | the loop runs to the end exactly when every line's product is loaded |
| `Inventory.RestockLeavesOthers` | Point_Sale.js:117-122 | products without a cart line keep their stored stock |
| `Inventory.RestockWrites` | Point_Sale.js:117-122 | each product in the cart ends with its loaded stock minus its line quantity |
| `Inventory.RestockStopsAtMissing` | Point_Sale.js:117-122 | at the first line whose product is not loaded, the writes for earlier lines stay and nothing after is written |
| `Inventory.RestockNonNegative` | Point_Sale.js:117-122 | if every line is within its loaded stock and no stock was negative, the loop finishes and no stock is negative |
| `Inventory.StaleSnapshotExample` | Point_Sale.js:117-121 | two checkouts of 3 from the same loaded stock of 5 both write 2 |
| `Customers.FindCustomer` | Point_Sale.js:126-128 | the position of the first customer with exactly the name; none exactly when nobody has it |
| `Customers.UpsertCustomer` | Point_Sale.js:125-143 | no ensures of its own; specified by `UpsertCases` (each case), `UpsertKeepsNamesUnique` and `RepeatedPurchases` |
| `Customers.FindCustomerIsFirstIndex` | Point_Sale.js:126-128 | the search by name is the generic first-match search |
| `Customers.UpsertCases` | Point_Sale.js:125-143 | no name: no change; known name: only the first match gains the total and a visit (missing fields read as 0) and today's date; unknown name: one new customer with the total, 1 visit and the phone |
| `Customers.UpsertKeepsNamesUnique` | Point_Sale.js:125-143 | no second customer with an existing name is created |
| `Customers.RepeatedPurchases` | Point_Sale.js:129-141 | after N checkouts by one name, each with its own total, phone and day, the matching customer holds the sum of the N totals, N more visits and the last day; a new customer keeps the first checkout's phone; nobody else changes |
| `Checkout.Stores.CompleteSale` | Point_Sale.js:97-155 | appends the sale record; stock, completion and customers are those of `Restock` and `UpsertCustomer`; the cart is cleared only on completion |
| `Checkout.Stores.WriteStock` | Point_Sale.js:116-122 | the stored stock after the loop is `Restock` of the old stock; it reports whether the loop finished |
| `Checkout.Stores.RecordVisit` | Point_Sale.js:125-143 | the customers afterwards are `UpsertCustomer` of the old customers |

## Left out

- Rendering, `useState`/`useEffect`, the payment dialog, `alert` and `console.error` are not modelled. They are presentation only.
- `loadData` and the `Product`, `Category`, `Sale` and `Customer` store calls are I/O. The stores are fields of `Checkout.Stores`, and the loaded products are a parameter.
- A failing `Sale.create`, `Product.update`, `Customer.filter`, `Customer.update` or `Customer.create` is not modelled. These are I/O failures. The only failure modelled is the `TypeError` of a product missing from the loaded list.
- `async`/`await` interleavings and concurrent checkouts are not modelled. The checkout is one sequential method.
- Prices and totals are integer minor units, not JavaScript doubles. So rounding is not modelled.
- `Date.now()` and `new Date().toISOString()` are parameters (`receiptNumber`, `today`). Receipt uniqueness cannot be stated.
- `toLowerCase` is ASCII lower-casing. Unicode case mapping is not modelled.
- The identifiers the customer store generates are not modelled. A customer is identified by its position.
- The `categoryOptions` list (Point_Sale.js:163) is not modelled. It only feeds the tab bar.
- Cart.UpdateCartQuantityPreserves: stated for a non-negative new quantity only. A negative quantity passes the stock guard and is stored as it is.
- Inventory.RestockWrites: stated for carts with one line per product, which is what the cart operations keep. With two lines for one product, the later line's write wins.
- Cart.AddToCartCases: the "only that line changes" case is stated for carts with unique ids. Otherwise every line with the id is incremented.
