/** The site's fixed product list and the lookup the product page does in it. */
module Catalog {
  import opened CartLines

  /** A catalog entry. */
  datatype Product = Product(id: string, name: string, price: nat, image: string, description: string)

  /** `productsDB`: the four products the site sells. */
  const ProductsDB: seq<Product> := [
    Product("1", "Teak Chair", 2500000, "./images/products/chair-1.jpg",
            "A minimalist chair carved from 100% solid Teak wood. Perfect for dining or accent use."),
    Product("2", "Wooden Bowl Set", 150000, "./images/products/bowl-set.jpg",
            "Handcrafted acacia wood bowls. Safe for food, easy to clean, and adds a natural touch."),
    Product("3", "Rustic Table", 7000000, "./images/products/table.jpg",
            "Reclaimed wood coffee table with a natural finish. Features a sturdy build and unique grain."),
    Product("4", "Vintage Lamp", 500000, "./images/products/lamp.jpg",
            "Warm ambient lighting with a hand-turned wooden base. Comes with an eco-friendly LED bulb.")
  ]

  predicate DistinctProductIds(db: seq<Product>)
  {
    forall i, j :: 0 <= i < j < |db| ==> db[i].id != db[j].id
  }

  /** `productsDB.find(p => p.id == productId)`: the first product with the
      id, ids compared exactly. */
  function FindProduct(db: seq<Product>, id: string): (r: Option<Product>)
    ensures r.None? <==> forall k :: 0 <= k < |db| ==> db[k].id != id
    ensures r.Some? ==> r.value.id == id
    ensures r.Some? ==> exists k :: 0 <= k < |db| && db[k] == r.value && forall j :: 0 <= j < k ==> db[j].id != id
  {
    if db == [] then None
    else if db[0].id == id then Some(db[0])
    else
      assert forall k :: 1 <= k < |db| ==> db[k] == db[1..][k - 1];
      var r := FindProduct(db[1..], id);
      if r.Some? then
        var k :| 0 <= k < |db[1..]| && db[1..][k] == r.value && forall j :: 0 <= j < k ==> db[1..][j].id != id;
        assert db[k + 1] == r.value;
        r
      else r
  }

  /** With one entry per id, looking up an entry's id finds that entry. */
  lemma {:induction false} FindProductDistinct(db: seq<Product>, k: int)
    requires DistinctProductIds(db) && 0 <= k < |db|
    ensures FindProduct(db, db[k].id) == Some(db[k])
  {
    if k > 0 {
      var t := db[1..];
      assert forall j :: 0 <= j < |t| ==> t[j] == db[j + 1];
      FindProductDistinct(t, k - 1);
    }
  }

  /** Every catalog product is found by its own id. */
  lemma CatalogLookup(k: int)
    requires 0 <= k < |ProductsDB|
    ensures FindProduct(ProductsDB, ProductsDB[k].id) == Some(ProductsDB[k])
  {
    FindProductDistinct(ProductsDB, k);
  }

  /** `{ ...product, quantity: 1 }`: a fresh cart line for one item of the
      product. */
  function NewLine(p: Product): CartLine
  {
    CartLine(p.id, p.name, p.price, p.image, 1)
  }
}
