/** The product grid that shows one named category, or everything. */
module CategoryProducts {
  import opened Wrappers
  import opened ShopData
  import opened Catalog
  import opened Cart
  import CatalogFacts

  /**
   * `products`: all products when `category` is falsy or `'All'`; otherwise the
   * products of the first category with that name, or none for an unknown name.
   */
  function SelectProducts(cats: seq<Category>, category: Option<string>): (r: seq<Product>)
    ensures !Truthy(category) || category.value == "All" ==> r == AllProducts(cats)
    ensures Truthy(category) && category.value != "All" && (forall c :: c in cats ==> c.name != category.value) ==>
              r == []
    ensures forall k :: (Truthy(category) && category.value != "All" && 0 <= k < |cats| &&
                         cats[k].name == category.value && (forall j :: 0 <= j < k ==> cats[j].name != category.value)) ==>
              r == cats[k].products
  {
    if Truthy(category) && category.value != "All" then ProductsNamed(cats, category.value)
    else AllProducts(cats)
  }

  /** With distinct names, naming a category (other than `'All'`) selects exactly its products. */
  lemma SelectNamedCategory(cats: seq<Category>, k: nat)
    requires DistinctNames(cats)
    requires k < |cats| && cats[k].name != "" && cats[k].name != "All"
    ensures SelectProducts(cats, Some(cats[k].name)) == cats[k].products
  {
  }

  /** In the shipped catalog `'All'` lists all 19 products and `'Drinks'` only its own. */
  lemma ShippedSelections()
    ensures |SelectProducts(Categories, Some("All"))| == 19
    ensures SelectProducts(Categories, Some("Drinks")) == Drinks.products
  {
    CatalogFacts.ShippedIdsAreOneToNineteen();
    CatalogFacts.ShippedOrder();
    assert Categories[0].name != "Drinks" && Categories[1].name != "Drinks";
    FindCategoryNamedAt(Categories, 2, "Drinks");
  }

  lemma UnknownNameSelectsNothing(cats: seq<Category>, name: string)
    requires name != "" && name != "All"
    requires forall c :: c in cats ==> c.name != name
    ensures SelectProducts(cats, Some(name)) == []
  {
  }

  /** A name no shipped category has yields an empty grid, not an error. */
  lemma ShippedUnknownCategory()
    ensures SelectProducts(Categories, Some("Meat")) == []
  {
    CatalogFacts.ShippedNames();
    assert "Meat" !in ["Bakery", "Dairy", "Drinks", "Fruits", "Pantry", "Vegetables", "Seafood", "Snacks", "Sweets", "Plants"];
    UnknownNameSelectsNothing(Categories, "Meat");
  }

  /** The grid's add-to-cart: the shared update on the stored cart. */
  method HandleAddToCart(store: Storage, product: Product) returns (outcome: AddOutcome)
    modifies store
    ensures outcome != ProductMissing
    ensures outcome == ParseFailed <==> LoadCart(old(store.entries)).None?
    ensures outcome == ParseFailed ==> store.entries == old(store.entries)
    ensures outcome == Added ==>
              store.entries == old(store.entries)[CartKey := Json(AddLine(LoadCart(old(store.entries)).value, product))]
    ensures StoredIdsUnique(old(store.entries)) ==> StoredIdsUnique(store.entries)
  {
    outcome := store.AddToCart(product);
  }
}
