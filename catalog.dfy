/** The product list the point-of-sale page loads (only active products) and the search and
    category filter that decides which of them the product grid shows. */
module Catalog {
  import opened Wrappers
  import opened Seqs

  type ProductId = string

  /** A product as loaded into the page; `price` is in minor currency units. */
  datatype Product = Product(id: ProductId, name: string, price: int, stock: int, category: string)

  /** `products.find(p => p.id === id)`: the first product with that id, if any. */
  function FindProduct(products: seq<Product>, id: ProductId): (r: Option<Product>)
    ensures r.Some? ==> r.value in products && r.value.id == id
    ensures r.None? <==> forall i :: 0 <= i < |products| ==> products[i].id != id
  {
    if products == [] then None
    else if products[0].id == id then Some(products[0])
    else FindProduct(products[1..], id)
  }

  /** `find` returns the first match: the product at the first position holding the id. */
  lemma {:induction false} FindProductFirst(products: seq<Product>, id: ProductId, k: nat)
    requires k < |products| && products[k].id == id
    requires forall j :: 0 <= j < k ==> products[j].id != id
    ensures FindProduct(products, id) == Some(products[k])
    decreases k
  {
    if k > 0 {
      assert products[0].id != id;
      assert forall j :: 0 <= j < k - 1 ==> products[1..][j] == products[j + 1];
      FindProductFirst(products[1..], id, k - 1);
    }
  }

  function HasProductId(id: ProductId): Product -> bool {
    (p: Product) => p.id == id
  }

  /** `find` is the element at the position the generic first-match search finds. */
  lemma FindProductIsFirstIndex(products: seq<Product>, id: ProductId)
    ensures FindProduct(products, id) ==
      match FirstIndex(products, HasProductId(id))
      case None => None
      case Some(k) => Some(products[k])
  {
    var f := FirstIndex(products, HasProductId(id));
    if f.Some? {
      FindProductFirst(products, id, f.value);
    }
  }

  /** The category tab that shows every product. */
  const AllCategories: string := "todos"

  /** ASCII `toLowerCase` on one character. */
  function LowerChar(c: char): char {
    if 'A' <= c <= 'Z' then (c as int + 32) as char else c
  }

  /** ASCII `toLowerCase`: same length, upper-case letters mapped, no upper-case letter left. */
  function Lower(s: string): (r: string)
    ensures |r| == |s|
    ensures forall i :: 0 <= i < |s| ==> r[i] == LowerChar(s[i])
    ensures forall i :: 0 <= i < |r| ==> !('A' <= r[i] <= 'Z')
  {
    seq(|s|, i requires 0 <= i < |s| => LowerChar(s[i]))
  }

  /** `t` occurs in `s` starting at position `i`. */
  predicate OccursAt(s: string, t: string, i: nat) {
    i + |t| <= |s| && s[i..i + |t|] == t
  }

  /** `s.includes(t)`. */
  function Includes(s: string, t: string): (b: bool)
    ensures b ==> |t| <= |s|
    ensures t == [] ==> b
    ensures |t| == |s| ==> (b <==> s == t)
    decreases |s|
  {
    if |t| > |s| then false
    else if s[..|t|] == t then true
    else Includes(s[1..], t)
  }

  /** The product grid shows `p` for the search term and category tab. */
  predicate Shown(p: Product, searchTerm: string, selectedCategory: string) {
    && Includes(Lower(p.name), Lower(searchTerm))
    && (selectedCategory == AllCategories || p.category == selectedCategory)
  }

  function ShownFor(searchTerm: string, selectedCategory: string): Product -> bool {
    p => Shown(p, searchTerm, selectedCategory)
  }

  /** `filteredProducts`: loaded products only, each one the grid shows. */
  function FilteredProducts(products: seq<Product>, searchTerm: string, selectedCategory: string): (r: seq<Product>)
    ensures |r| <= |products|
    ensures forall i :: 0 <= i < |r| ==> r[i] in products && Shown(r[i], searchTerm, selectedCategory)
  {
    Filter(products, ShownFor(searchTerm, selectedCategory))
  }

  // ----- properties -----

  /** `includes` means "occurs at some position". */
  lemma {:induction false} IncludesIffOccurs(s: string, t: string)
    ensures Includes(s, t) <==> exists i: nat :: OccursAt(s, t, i)
    decreases |s|
  {
    if |t| > |s| {
      forall i: nat ensures !OccursAt(s, t, i) { }
    } else if s[..|t|] == t {
      assert OccursAt(s, t, 0);
    } else {
      IncludesIffOccurs(s[1..], t);
      if Includes(s[1..], t) {
        var i: nat :| OccursAt(s[1..], t, i);
        assert s[1..][i..i + |t|] == s[i + 1..i + 1 + |t|];
        assert OccursAt(s, t, i + 1);
      } else {
        forall i: nat | OccursAt(s, t, i) ensures false {
          assert i != 0;
          assert s[1..][i - 1..i - 1 + |t|] == s[i..i + |t|];
          assert OccursAt(s[1..], t, i - 1);
        }
      }
    }
  }

  /** A product is listed exactly when its lower-cased name contains the lower-cased search
      term and the tab is "todos" or its category; the listing keeps the loaded order, and a
      product loaded several times is listed as many times when shown. */
  lemma FilteredProductsSpec(products: seq<Product>, searchTerm: string, selectedCategory: string)
    ensures forall p :: p in FilteredProducts(products, searchTerm, selectedCategory) <==>
      && p in products
      && (exists i: nat :: OccursAt(Lower(p.name), Lower(searchTerm), i))
      && (selectedCategory == AllCategories || p.category == selectedCategory)
    ensures IsSubsequence(FilteredProducts(products, searchTerm, selectedCategory), products)
    ensures forall p ::
      multiset(FilteredProducts(products, searchTerm, selectedCategory))[p]
        == if Shown(p, searchTerm, selectedCategory) then multiset(products)[p] else 0
  {
    FilterMultiset(products, ShownFor(searchTerm, selectedCategory));
    var r := FilteredProducts(products, searchTerm, selectedCategory);
    forall p ensures p in r <==> p in products && Shown(p, searchTerm, selectedCategory) {
      if p in r {
        var i :| 0 <= i < |r| && r[i] == p;
      }
      if p in products && Shown(p, searchTerm, selectedCategory) {
        var i :| 0 <= i < |products| && products[i] == p;
      }
    }
    forall p: Product ensures Shown(p, searchTerm, selectedCategory) <==>
      && (exists i: nat :: OccursAt(Lower(p.name), Lower(searchTerm), i))
      && (selectedCategory == AllCategories || p.category == selectedCategory)
    {
      IncludesIffOccurs(Lower(p.name), Lower(searchTerm));
    }
    FilterIsSubsequence(products, ShownFor(searchTerm, selectedCategory));
  }

  /** With an empty search and the "todos" tab every loaded product is shown, in order. */
  lemma {:induction false} EmptySearchShowsAll(products: seq<Product>)
    ensures FilteredProducts(products, "", AllCategories) == products
  {
    forall i | 0 <= i < |products| ensures ShownFor("", AllCategories)(products[i]) {
      assert Lower(products[i].name)[..0] == Lower("");
    }
    FilterKeepsAll(products, ShownFor("", AllCategories));
  }
}
