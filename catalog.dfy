/**
 * The catalog service: a constant product table and lookups in it.
 * No handler writes the table, so it is a `const`.
 */
module Catalog {
  import opened Wrappers

  datatype Product = Product(id: int, name: string, price: int, category: string)

  /** The product table, in the order the service lists it. */
  const Products: seq<Product> := [
    Product(1, "iPhone 15 Pro", 999, "electronics"),
    Product(2, "MacBook Pro M3", 2499, "electronics"),
    Product(3, "AirPods Pro", 249, "accessories"),
    Product(4, "iPad Air", 599, "electronics"),
    Product(5, "Apple Watch Ultra", 799, "accessories")
  ]

  /** No two entries of `table` share an id. */
  predicate DistinctIds(table: seq<Product>)
  {
    forall i, j :: 0 <= i < j < |table| ==> table[i].id != table[j].id
  }

  /** Every entry of `table` has a positive integer price. */
  predicate PositivePrices(table: seq<Product>)
  {
    forall i :: 0 <= i < |table| ==> table[i].price > 0
  }

  /** The first entry of `table` whose id is `id`, if any. */
  function FindProduct(table: seq<Product>, id: int): (r: Option<Product>)
    ensures r.None? <==> forall i :: 0 <= i < |table| ==> table[i].id != id
    ensures r.Some? ==> exists i :: 0 <= i < |table| && table[i] == r.value && r.value.id == id
                                    && forall j :: 0 <= j < i ==> table[j].id != id
  {
    if table == [] then None
    else if table[0].id == id then Some(table[0])
    else
      var rest := FindProduct(table[1..], id);
      assert rest.Some? ==> exists i :: 0 < i < |table| && table[i] == rest.value && rest.value.id == id
                                        && forall j :: 0 <= j < i ==> table[j].id != id by {
        if rest.Some? {
          var k :| 0 <= k < |table[1..]| && table[1..][k] == rest.value && rest.value.id == id
                   && forall j :: 0 <= j < k ==> table[1..][j].id != id;
          assert table[k + 1] == rest.value;
          assert forall j :: 0 <= j < k + 1 ==> table[j].id != id by {
            forall j | 0 <= j < k + 1 ensures table[j].id != id {
              if j > 0 { assert table[j] == table[1..][j - 1]; }
            }
          }
        }
      }
      assert rest.None? ==> forall i :: 0 <= i < |table| ==> table[i].id != id by {
        if rest.None? {
          forall i | 0 <= i < |table| ensures table[i].id != id {
            if i > 0 { assert table[i] == table[1..][i - 1]; }
          }
        }
      }
      rest
  }

  /** The table's ids are 1..5, all distinct, and its prices are positive. */
  lemma TableWellFormed()
    ensures DistinctIds(Products)
    ensures PositivePrices(Products)
    ensures forall i :: 0 <= i < |Products| ==> Products[i].id == i + 1
  {
  }

  /** With distinct ids, the lookup finds exactly the entry carrying the id. */
  lemma {:induction false} FindProductUnique(table: seq<Product>, p: Product)
    requires DistinctIds(table)
    requires p in table
    ensures FindProduct(table, p.id) == Some(p)
  {
    if table[0] != p {
      assert p in table[1..];
      var k :| 0 <= k < |table[1..]| && table[1..][k] == p;
      assert table[0].id != p.id by { assert table[k + 1] == p; }
      FindProductUnique(table[1..], p);
    }
  }

  /** The reply of `GET /products/<id>`. */
  datatype ProductResponse = ProductFound(product: Product) | ProductNotFound {
    function Status(): int
    {
      if ProductFound? then 200 else 404
    }
  }

  /** The reply of `GET /products`: the whole table and its length. */
  datatype Listing = Listing(products: seq<Product>, total: int)

  /** `GET /products/<id>`: the table entry with that id (status 200), else status 404. */
  function GetProduct(id: int): (r: ProductResponse)
    ensures r.ProductFound? <==> exists i :: 0 <= i < |Products| && Products[i].id == id
    ensures r.ProductFound? ==> r.product in Products && r.product.id == id && r.Status() == 200
    ensures r.ProductNotFound? ==> r.Status() == 404
  {
    match FindProduct(Products, id)
    case Some(p) => ProductFound(p)
    case None => ProductNotFound
  }

  /** Every entry of the table is what `GET /products/<id>` returns for its id. */
  lemma GetProductReturnsEntry(p: Product)
    requires p in Products
    ensures GetProduct(p.id) == ProductFound(p)
  {
    TableWellFormed();
    FindProductUnique(Products, p);
  }

  /** `GET /products`: every product, and `total` is how many there are. */
  function GetProducts(): (r: Listing)
    ensures r.products == Products
    ensures r.total == |r.products| == 5
  {
    Listing(Products, |Products|)
  }
}
