/** The drinks page: the products of the category named `'Drinks'`. */
module Drinks {
  import opened ShopData
  import opened Catalog
  import opened Cart
  import CatalogFacts

  /** The shipped catalog's drinks page shows exactly one product, the energy drink (id 5). */
  lemma ShippedDrinks()
    ensures ProductsNamed(Categories, "Drinks") == ShopData.Drinks.products
    ensures ProductIds(ProductsNamed(Categories, "Drinks")) == [5]
  {
    CatalogFacts.ShippedOrder();
    assert Categories[0].name != "Drinks" && Categories[1].name != "Drinks";
    FindCategoryNamedAt(Categories, 2, "Drinks");
  }

  /** The drinks grid's add-to-cart: the shared update on the stored cart. */
  method HandleAddToCart(store: Storage, product: Product) returns (outcome: AddOutcome)
    modifies store
    ensures outcome != ProductMissing
    ensures outcome == ParseFailed <==> LoadCart(old(store.entries)).None?
    ensures outcome == ParseFailed ==> store.entries == old(store.entries)
    ensures outcome == Added ==>
              store.entries == old(store.entries)[CartKey := Json(AddLine(LoadCart(old(store.entries)).value, product))]
    ensures StoredIdsUnique(old(store.entries)) ==> StoredIdsUnique(store.entries)
  {
    outcome := store.AddToCart(product);
  }
}
