/**
 * The vendor's product table of app/vendor/products/page.tsx: the name
 * search, the confirmed delete, and the stock column's colour and marker.
 * The confirm dialog's answer is a parameter of HandleDelete.
 */
module VendorProducts {
  import opened Text

  datatype Product = Product(id: string, name: string, category: string, price: int, stock: int, status: string, image: string)

  /** A product is shown when its lower-cased name contains the lower-cased term. */
  predicate Matches(p: Product, term: string) {
    Contains(Lower(p.name), Lower(term))
  }

  /** `filteredProducts`. */
  function Filtered(products: seq<Product>, term: string): (r: seq<Product>)
    ensures forall p :: p in r <==> p in products && Matches(p, term)
    ensures |r| <= |products|
  {
    if products == [] then []
    else (if Matches(products[0], term) then [products[0]] else []) + Filtered(products[1..], term)
  }

  /** Filtering works piece by piece, so the shown products keep their order. */
  lemma {:induction false} FilteredConcat(a: seq<Product>, b: seq<Product>, term: string)
    ensures Filtered(a + b, term) == Filtered(a, term) + Filtered(b, term)
  {
    if a == [] {
      assert a + b == b;
    } else {
      assert (a + b)[0] == a[0];
      assert (a + b)[1..] == a[1..] + b;
      FilteredConcat(a[1..], b, term);
    }
  }

  /** The empty search term shows every product. */
  lemma {:induction false} EmptyTermKeepsAll(products: seq<Product>)
    ensures Filtered(products, "") == products
  {
    if products != [] {
      PrefixIsContained(Lower(products[0].name), Lower(""));
      EmptyTermKeepsAll(products[1..]);
      assert products == [products[0]] + products[1..];
    }
  }

  /** The term's case does not matter. */
  lemma {:induction false} FilteredIgnoresCase(products: seq<Product>, term: string)
    ensures Filtered(products, Upper(term)) == Filtered(products, term)
  {
    LowerOfUpper(term);
    if products != [] {
      FilteredIgnoresCase(products[1..], term);
    }
  }

  /** `products.filter(p => p.id !== id)`. */
  function WithoutId(products: seq<Product>, id: string): (r: seq<Product>)
    ensures forall p :: p in r <==> p in products && p.id != id
    ensures |r| <= |products|
  {
    if products == [] then []
    else (if products[0].id != id then [products[0]] else []) + WithoutId(products[1..], id)
  }

  /** Deletion works piece by piece, so the remaining products keep their order. */
  lemma {:induction false} WithoutIdConcat(a: seq<Product>, b: seq<Product>, id: string)
    ensures WithoutId(a + b, id) == WithoutId(a, id) + WithoutId(b, id)
  {
    if a == [] {
      assert a + b == b;
    } else {
      assert (a + b)[0] == a[0];
      assert (a + b)[1..] == a[1..] + b;
      WithoutIdConcat(a[1..], b, id);
    }
  }

  /** Deleting an id no product has changes nothing. */
  lemma {:induction false} WithoutAbsentId(products: seq<Product>, id: string)
    requires forall i :: 0 <= i < |products| ==> products[i].id != id
    ensures WithoutId(products, id) == products
  {
    if products != [] {
      WithoutAbsentId(products[1..], id);
      assert products == [products[0]] + products[1..];
    }
  }

  /** Deleting and searching commute: the shown list after a delete is the shown list without that id. */
  lemma {:induction false} DeleteThenFilter(products: seq<Product>, id: string, term: string)
    ensures Filtered(WithoutId(products, id), term) == WithoutId(Filtered(products, term), id)
  {
    if products != [] {
      var p := products[0];
      var rest := products[1..];
      DeleteThenFilter(rest, id, term);
      var head := if p.id != id then [p] else [];
      FilteredConcat(head, WithoutId(rest, id), term);
      var shownHead := if Matches(p, term) then [p] else [];
      WithoutIdConcat(shownHead, Filtered(rest, term), id);
    }
  }

  /** The three stock bands of the Stock column. */
  datatype Band = OutOfStock | LowStock | InStock

  function StockBand(stock: int): Band {
    if stock == 0 then OutOfStock else if stock < 10 then LowStock else InStock
  }

  /** The class of the stock figure. */
  function StockColor(stock: int): (c: string)
    ensures c == "text-red-600" <==> StockBand(stock) == OutOfStock
    ensures c == "text-amber-600" <==> StockBand(stock) == LowStock
    ensures c == "text-green-600" <==> StockBand(stock) == InStock
  {
    if stock == 0 then "text-red-600"
    else if stock < 10 then "text-amber-600"
    else "text-green-600"
  }

  /** The marker after the figure: a warning for low stock, a cross for none, nothing else. */
  function StockMarker(stock: int): (m: string)
    ensures m == "⚠️" <==> 0 < stock < 10
    ensures m == "❌" <==> stock == 0
    ensures m == "" <==> stock < 0 || stock >= 10
  {
    (if stock < 10 && stock > 0 then "⚠️" else "") + (if stock == 0 then "❌" else "")
  }

  /** For stock counts the bands are disjoint, cover every count, and the marker agrees with the band. */
  lemma StockBands(stock: nat)
    ensures stock == 0 <==> StockBand(stock) == OutOfStock
    ensures 1 <= stock <= 9 <==> StockBand(stock) == LowStock
    ensures stock >= 10 <==> StockBand(stock) == InStock
    ensures StockMarker(stock) == "⚠️" <==> StockBand(stock) == LowStock
    ensures StockMarker(stock) == "❌" <==> StockBand(stock) == OutOfStock
    ensures StockMarker(stock) == "" <==> StockBand(stock) == InStock
  {
  }

  /** The status badge. */
  function BadgeVariant(status: string): (v: string)
    ensures v == "default" <==> status == "active"
    ensures v != "default" ==> v == "secondary"
  {
    if status == "active" then "default" else "secondary"
  }

  /** `VendorProductsPage`'s state: the product list and the search term. */
  class ProductsPage {
    var products: seq<Product>
    var searchTerm: string

    constructor(initial: seq<Product>)
      ensures products == initial && searchTerm == ""
      ensures Shown() == initial
    {
      products := initial;
      searchTerm := "";
      EmptyTermKeepsAll(initial);
    }

    /** The rows of the table. */
    function Shown(): seq<Product>
      reads this
    {
      Filtered(products, searchTerm)
    }

    method SetSearchTerm(term: string)
      modifies this
      ensures searchTerm == term && products == old(products)
    {
      searchTerm := term;
    }

    /** `handleDelete(id)` with the confirm dialog's answer. */
    method HandleDelete(id: string, confirmed: bool)
      modifies this
      ensures confirmed ==> products == WithoutId(old(products), id)
      ensures !confirmed ==> products == old(products)
      ensures searchTerm == old(searchTerm)
      ensures confirmed ==> Shown() == WithoutId(old(Shown()), id)
    {
      if confirmed {
        DeleteThenFilter(products, id, searchTerm);
        products := WithoutId(products, id);
      }
    }
  }
}
