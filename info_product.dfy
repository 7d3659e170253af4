/** The product detail page at `/product/:id`. */
module InfoProduct {
  import opened Wrappers
  import opened ShopData
  import opened Catalog
  import opened Cart

  /**
   * Add-to-cart on the detail page. `productId` is the route id after `parseInt`
   * (`None` for NaN). With no product found the handler returns at once and the
   * store is untouched; otherwise it is the shared update.
   */
  method HandleAddToCart(store: Storage, productId: Option<int>) returns (outcome: AddOutcome)
    modifies store
    ensures outcome == ProductMissing <==> FindProduct(Categories, productId).None?
    ensures FindProduct(Categories, productId).None? ==>
              outcome == ProductMissing && store.entries == old(store.entries)
    ensures FindProduct(Categories, productId).Some? ==>
              (outcome == ParseFailed <==> LoadCart(old(store.entries)).None?)
    ensures outcome == ParseFailed ==> store.entries == old(store.entries)
    ensures outcome == Added ==>
              store.entries == old(store.entries)[CartKey :=
                Json(AddLine(LoadCart(old(store.entries)).value, FindProduct(Categories, productId).value))]
    ensures StoredIdsUnique(old(store.entries)) ==> StoredIdsUnique(store.entries)
  {
    var product := FindProduct(Categories, productId);
    if product.None? {
      return ProductMissing;
    }
    outcome := store.AddToCart(product.value);
  }
}
