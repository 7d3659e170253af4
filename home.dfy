/** The home page: the featured products, the SOL price ticker and a cosmetic add button. */
module Home {
  import opened Wrappers
  import opened ShopData
  import opened Catalog
  import opened Cart
  import CatalogFacts

  /**
   * `featuredProducts`: the first two `'Bakery'` products, the first `'Dairy'` one and
   * the first `'Snacks'` one, capped at four. A missing category contributes nothing,
   * and the cap never removes anything.
   */
  function Featured(cats: seq<Category>): (r: seq<Product>)
    ensures |r| <= 4
    ensures r == Take(ProductsNamed(cats, "Bakery"), 2) + Take(ProductsNamed(cats, "Dairy"), 1) +
                 Take(ProductsNamed(cats, "Snacks"), 1)
  {
    Take(Take(ProductsNamed(cats, "Bakery"), 2) + Take(ProductsNamed(cats, "Dairy"), 1) +
         Take(ProductsNamed(cats, "Snacks"), 1), 4)
  }

  lemma ShippedFeaturedSources()
    ensures ProductsNamed(Categories, "Bakery") == Bakery.products
    ensures ProductsNamed(Categories, "Dairy") == Dairy.products
    ensures ProductsNamed(Categories, "Snacks") == Snacks.products
  {
    CatalogFacts.ShippedOrder();
    FindCategoryNamedAt(Categories, 0, "Bakery");
    assert Categories[0].name != "Dairy";
    FindCategoryNamedAt(Categories, 1, "Dairy");
    assert forall j :: 0 <= j < 7 ==> Categories[j].name != "Snacks";
    FindCategoryNamedAt(Categories, 7, "Snacks");
  }

  /** With enough products in each source category, the featured list is full: two, one and one. */
  lemma FeaturedFrom(cats: seq<Category>, bakery: seq<Product>, dairy: seq<Product>, snacks: seq<Product>)
    requires ProductsNamed(cats, "Bakery") == bakery
    requires ProductsNamed(cats, "Dairy") == dairy
    requires ProductsNamed(cats, "Snacks") == snacks
    requires |bakery| >= 2 && |dairy| >= 1 && |snacks| >= 1
    ensures Featured(cats) == [bakery[0], bakery[1], dairy[0], snacks[0]]
  {
    assert Take(bakery, 2) == [bakery[0], bakery[1]];
    assert Take(dairy, 1) == [dairy[0]];
    assert Take(snacks, 1) == [snacks[0]];
  }

  lemma ShippedFeaturedList()
    ensures Featured(Categories) == [Bakery.products[0], Bakery.products[1], Dairy.products[0], Snacks.products[0]]
  {
    ShippedFeaturedSources();
    FeaturedFrom(Categories, Bakery.products, Dairy.products, Snacks.products);
  }

  /** With the shipped catalog the featured ids are 1, 2, 3 and 14. */
  lemma ShippedFeatured()
    ensures ProductIds(Featured(Categories)) == [1, 2, 3, 14]
  {
    ShippedFeaturedList();
    IdsOfFour(Bakery.products[0], Bakery.products[1], Dairy.products[0], Snacks.products[0]);
  }

  lemma IdsOfFour(a: Product, b: Product, c: Product, d: Product)
    ensures ProductIds([a, b, c, d]) == [a.id, b.id, c.id, d.id]
  {
    var f := [a, b, c, d];
    assert f[1..] == [b, c, d] && f[1..][1..] == [c, d] && f[1..][1..][1..] == [d];
    assert ProductIds([d]) == [d.id];
    assert ProductIds([c, d]) == [c.id, d.id];
    assert ProductIds([b, c, d]) == [b.id, c.id, d.id];
  }

  datatype Trend = Up | Down

  /** The price shown when the fetch fails. */
  const FallbackPrice: real := 145.32

  /** The ticker state of the home page: `solPrice` and `priceTrend`, both unset at first. */
  class PriceTicker {
    var solPrice: Option<real>
    var priceTrend: Option<Trend>

    constructor ()
      ensures solPrice == None && priceTrend == None
    {
      solPrice := None;
      priceTrend := None;
    }

    /**
     * One `fetchSolPrice` round with the fetched USD price, or `None` when the request
     * fails: a price above 145 trends up, any other down; on failure the price falls
     * back to 145.32 and the trend stays as it was.
     */
    method FetchSolPrice(fetched: Option<real>)
      modifies this
      ensures fetched.Some? ==> solPrice == fetched
      ensures fetched.Some? ==> (priceTrend == Some(Up) <==> fetched.value > 145.0)
      ensures fetched.Some? ==> priceTrend.Some?
      ensures fetched.None? ==> solPrice == Some(FallbackPrice) && priceTrend == old(priceTrend)
    {
      if fetched.Some? {
        solPrice := fetched;
        priceTrend := Some(if fetched.value > 145.0 then Up else Down);
      } else {
        solPrice := Some(FallbackPrice);
      }
    }
  }

  /** Home's add button only logs and animates: it neither reads nor writes the stored cart. */
  method HandleAddToCart(store: Storage, product: Product) returns (logLine: string)
    ensures store.entries == old(store.entries)
    ensures logLine == "Added " + product.name + " to cart"
  {
    logLine := "Added " + product.name + " to cart";
  }
}
