/** The snacks page: shows the category picked by the optional `:categoryId` route parameter, `'Snacks'` by default. */
module Snack {
  import opened Wrappers
  import opened ShopData
  import opened Catalog
  import opened Cart
  import CatalogFacts

  /** With a truthy `categoryId` the category whose `id` field equals it, otherwise the one named `'Snacks'`. */
  function ResolveCategory(cats: seq<Category>, categoryId: Option<string>): (r: Option<Category>)
    ensures r.Some? ==> r.value in cats
    ensures Truthy(categoryId) ==> (r.Some? <==> exists c :: c in cats && c.id == categoryId)
    ensures Truthy(categoryId) && r.Some? ==> r.value.id == categoryId
    ensures !Truthy(categoryId) ==> (r.Some? <==> exists c :: c in cats && c.name == "Snacks")
    ensures !Truthy(categoryId) && r.Some? ==> r.value.name == "Snacks"
    ensures forall k :: (Truthy(categoryId) && 0 <= k < |cats| && cats[k].id == categoryId &&
                         (forall j :: 0 <= j < k ==> cats[j].id != categoryId)) ==> r == Some(cats[k])
    ensures forall k :: (!Truthy(categoryId) && 0 <= k < |cats| && cats[k].name == "Snacks" &&
                         (forall j :: 0 <= j < k ==> cats[j].name != "Snacks")) ==> r == Some(cats[k])
  {
    if Truthy(categoryId) then FindCategoryWithId(cats, categoryId.value)
    else FindCategoryNamed(cats, "Snacks")
  }

  /** The memoised `products`: the resolved category's products, or none. */
  function SnackProducts(cats: seq<Category>, categoryId: Option<string>): (r: seq<Product>)
    ensures !Truthy(categoryId) && (forall c :: c in cats ==> c.name != "Snacks") ==> r == []
    ensures forall k :: (!Truthy(categoryId) && 0 <= k < |cats| && cats[k].name == "Snacks" &&
                         (forall j :: 0 <= j < k ==> cats[j].name != "Snacks")) ==> r == cats[k].products
    ensures Truthy(categoryId) && (forall c :: c in cats ==> c.id != categoryId) ==> r == []
    ensures forall k :: (Truthy(categoryId) && 0 <= k < |cats| && cats[k].id == categoryId &&
                         (forall j :: 0 <= j < k ==> cats[j].id != categoryId)) ==> r == cats[k].products
  {
    ProductsOf(ResolveCategory(cats, categoryId))
  }

  /** The page's `currentCategory` state. */
  class SnackView {
    var currentCategory: string

    constructor ()
      ensures currentCategory == "Snacks"
    {
      currentCategory := "Snacks";
    }

    /** The effect run when `categoryId` changes: adopt the resolved category's name, if any. */
    method SyncCategory(cats: seq<Category>, categoryId: Option<string>)
      modifies this
      ensures ResolveCategory(cats, categoryId).Some? ==>
                currentCategory == ResolveCategory(cats, categoryId).value.name
      ensures ResolveCategory(cats, categoryId).None? ==> currentCategory == old(currentCategory)
    {
      var category := ResolveCategory(cats, categoryId);
      if category.Some? {
        currentCategory := category.value.name;
      }
    }
  }

  /** A truthy `categoryId` resolves nothing in a catalog whose categories carry no `id`. */
  lemma NoIdsResolveNothing(cats: seq<Category>, categoryId: Option<string>)
    requires Truthy(categoryId)
    requires forall c :: c in cats ==> c.id == None
    ensures ResolveCategory(cats, categoryId) == None
    ensures SnackProducts(cats, categoryId) == []
  {
  }

  /**
   * No shipped category carries an `id`, so with any truthy `categoryId` the page is
   * empty; without one it shows the two snacks, ids 14 and 15.
   */
  lemma ShippedSnacks(categoryId: Option<string>)
    ensures Truthy(categoryId) ==> ResolveCategory(Categories, categoryId) == None
    ensures Truthy(categoryId) ==> SnackProducts(Categories, categoryId) == []
    ensures !Truthy(categoryId) ==> ResolveCategory(Categories, categoryId) == Some(Snacks)
    ensures !Truthy(categoryId) ==> SnackProducts(Categories, categoryId) == Snacks.products
  {
    if Truthy(categoryId) {
      CatalogFacts.ShippedWithoutIds();
      NoIdsResolveNothing(Categories, categoryId);
    } else {
      CatalogFacts.ShippedOrder();
      assert forall j :: 0 <= j < 7 ==> Categories[j].name != "Snacks";
      FindCategoryNamedAt(Categories, 7, "Snacks");
    }
  }

  /** The snack grid's add-to-cart: the shared update on the stored cart. */
  method HandleAddToCart(store: Storage, product: Product) returns (outcome: AddOutcome)
    modifies store
    ensures outcome != ProductMissing
    ensures outcome == ParseFailed <==> LoadCart(old(store.entries)).None?
    ensures outcome == ParseFailed ==> store.entries == old(store.entries)
    ensures outcome == Added ==>
              store.entries == old(store.entries)[CartKey := Json(AddLine(LoadCart(old(store.entries)).value, product))]
    ensures StoredIdsUnique(old(store.entries)) ==> StoredIdsUnique(store.entries)
  {
    outcome := store.AddToCart(product);
  }
}
