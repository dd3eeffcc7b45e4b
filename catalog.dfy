/** The product catalog of the store and the admin's stock edit. */
module Catalog {

  /** One catalog entry; `price` is in dollars, `stock` is the units left. */
  datatype Product = Product(id: int, name: string, price: real, stock: int, category: string)

  /** The catalog the store starts from when nothing is persisted. */
  const InitialProducts: seq<Product> := [
    Product(1, "Pre-Folded Papers Pack", 3.0, 100, "Office"),
    Product(2, "Drink Combo (40 drinks)", 25.0, 50, "Food & Drinks"),
    Product(3, "Sandwich Combo (20 sandwiches)", 40.0, 40, "Food & Drinks"),
    Product(4, "Custom Gift Card (load $15–$100)", 1.0, 500, "Gift Cards"),
    Product(8, "Pokémon Cards (Boy) + 1 Toy \U{1F381}", 6.0, 80, "Toys"),
    Product(9, "Pokémon Cards (Girl) + 1 Toy \U{1F381}", 6.0, 80, "Toys"),
    Product(10, "Cute Bookmarks \U{1F4D1}", 1.0, 300, "School"),
    Product(11, "Bookmark Bundle Deal \U{1F392} (5 for $4)", 4.0, 120, "School")
  ]

  /** No two products of the catalog share an id. */
  ghost predicate DistinctIds(products: seq<Product>)
  {
    forall i, j :: 0 <= i < j < |products| ==> products[i].id != products[j].id
  }

  /** The set of ids the catalog lists. */
  function Ids(products: seq<Product>): (ids: set<int>)
    ensures forall i :: 0 <= i < |products| ==> products[i].id in ids
    ensures forall id :: id in ids ==> exists i :: 0 <= i < |products| && products[i].id == id
  {
    if products == [] then {} else {products[0].id} + Ids(products[1..])
  }

  /** The initial catalog lists every id once and in stock. */
  lemma InitialCatalogWellFormed()
    ensures DistinctIds(InitialProducts)
    ensures forall i :: 0 <= i < |InitialProducts| ==> InitialProducts[i].stock > 0
  {
  }

  /**
   * The admin's stock edit: the product with id `id` gets stock `value`;
   * every other product, every other field and the order stay as they were.
   */
  function WithStock(products: seq<Product>, id: int, value: int): (r: seq<Product>)
    ensures |r| == |products|
    ensures forall i :: 0 <= i < |r| ==> r[i] == products[i].(stock := r[i].stock)
    ensures forall i :: 0 <= i < |r| && products[i].id == id ==> r[i].stock == value
    ensures forall i :: 0 <= i < |r| && products[i].id != id ==> r[i] == products[i]
  {
    seq(|products|, i requires 0 <= i < |products| =>
      if products[i].id == id then products[i].(stock := value) else products[i])
  }

  /** Of two edits of the same product, the last one wins. */
  lemma WithStockLastWins(products: seq<Product>, id: int, first: int, second: int)
    ensures WithStock(WithStock(products, id, first), id, second) == WithStock(products, id, second)
  {
  }

  /** The edit keeps the set of ids, so a well-formed catalog stays well formed. */
  lemma WithStockKeepsIds(products: seq<Product>, id: int, value: int)
    ensures Ids(WithStock(products, id, value)) == Ids(products)
    ensures DistinctIds(products) ==> DistinctIds(WithStock(products, id, value))
  {
  }
}
