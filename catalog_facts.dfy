/** Properties of the shipped catalog constant, `shopData`. */
module CatalogFacts {
  import opened Wrappers
  import opened ShopData
  import opened Catalog

  lemma AllProductsFrom(cats: seq<Category>, k: nat)
    requires k < |cats|
    ensures AllProducts(cats[k..]) == cats[k].products + AllProducts(cats[k + 1..])
  {
  }

  /** A five-category catalog flattens to its categories' products in order. */
  lemma FlattenFive(cats: seq<Category>)
    requires |cats| == 5
    ensures AllProducts(cats) ==
      cats[0].products + cats[1].products + cats[2].products + cats[3].products + cats[4].products
  {
    assert cats[5..] == [];
    AllProductsFrom(cats, 4);
    AllProductsFrom(cats, 3);
    AllProductsFrom(cats, 2);
    AllProductsFrom(cats, 1);
    AllProductsFrom(cats, 0);
    assert cats[0..] == cats;
  }

  /** A ten-category catalog flattens to its categories' products, five and five. */
  lemma FlattenTen(cats: seq<Category>)
    requires |cats| == 10
    ensures AllProducts(cats) ==
      (cats[0].products + cats[1].products + cats[2].products + cats[3].products + cats[4].products) +
      (cats[5].products + cats[6].products + cats[7].products + cats[8].products + cats[9].products)
  {
    assert cats == cats[..5] + cats[5..];
    AllProductsAppend(cats[..5], cats[5..]);
    FlattenFive(cats[..5]);
    FlattenFive(cats[5..]);
  }

  /** The shipped catalog flattened: each category's products, in catalog order. */
  lemma ShippedProducts()
    ensures AllProducts(Categories) ==
      (Bakery.products + Dairy.products + Drinks.products + Fruits.products + Pantry.products) +
      (Vegetables.products + Seafood.products + Snacks.products + Sweets.products + Plants.products)
  {
    FlattenTen(Categories);
  }

  lemma {:induction false} ProductIdsAppend(a: seq<Product>, b: seq<Product>)
    ensures ProductIds(a + b) == ProductIds(a) + ProductIds(b)
  {
    if a == [] {
      assert a + b == b;
    } else {
      assert (a + b)[1..] == a[1..] + b;
      ProductIdsAppend(a[1..], b);
    }
  }

  /** The ids of five joined product lists are their ids joined. */
  lemma IdsOfFive(a: seq<Product>, b: seq<Product>, c: seq<Product>, d: seq<Product>, e: seq<Product>)
    ensures ProductIds(a + b + c + d + e) ==
              ProductIds(a) + ProductIds(b) + ProductIds(c) + ProductIds(d) + ProductIds(e)
  {
    ProductIdsAppend(a, b);
    ProductIdsAppend(a + b, c);
    ProductIdsAppend(a + b + c, d);
    ProductIdsAppend(a + b + c + d, e);
  }

  lemma FirstHalfIds()
    ensures ProductIds(Bakery.products + Dairy.products + Drinks.products + Fruits.products + Pantry.products) ==
              [1, 2, 3, 4, 5, 6, 7, 8, 9]
  {
    IdsOfFive(Bakery.products, Dairy.products, Drinks.products, Fruits.products, Pantry.products);
    assert ProductIds(Bakery.products) == [1, 2];
    assert ProductIds(Dairy.products) == [3, 4];
    assert ProductIds(Drinks.products) == [5];
    assert ProductIds(Fruits.products) == [6, 7];
    assert ProductIds(Pantry.products) == [8, 9];
  }

  lemma SecondHalfIds()
    ensures ProductIds(Vegetables.products + Seafood.products + Snacks.products + Sweets.products + Plants.products) ==
              [10, 11, 12, 13, 14, 15, 16, 17, 18, 19]
  {
    IdsOfFive(Vegetables.products, Seafood.products, Snacks.products, Sweets.products, Plants.products);
    assert ProductIds(Vegetables.products) == [10, 11];
    assert ProductIds(Seafood.products) == [12, 13];
    assert ProductIds(Snacks.products) == [14, 15];
    assert ProductIds(Sweets.products) == [16, 17];
    assert ProductIds(Plants.products) == [18, 19];
  }

  /** Flattening the shipped catalog lists the ids 1, 2, ..., 19 in order. */
  lemma ShippedIdsAreOneToNineteen()
    ensures ProductIds(AllProducts(Categories)) == [1, 2, 3, 4, 5, 6, 7, 8, 9, 10, 11, 12, 13, 14, 15, 16, 17, 18, 19]
  {
    ShippedProducts();
    FirstHalfIds();
    SecondHalfIds();
    ProductIdsAppend(Bakery.products + Dairy.products + Drinks.products + Fruits.products + Pantry.products,
                     Vegetables.products + Seafood.products + Snacks.products + Sweets.products + Plants.products);
  }

  lemma {:induction false} ProductIdsAt(ps: seq<Product>, i: nat)
    requires i < |ps|
    ensures ProductIds(ps)[i] == ps[i].id
  {
    if i > 0 {
      ProductIdsAt(ps[1..], i - 1);
    }
  }

  /** A product list whose ids read 1, 2, ..., 19 holds each of those ids once and no other id. */
  lemma {:induction false} OneToNineteen(ps: seq<Product>)
    requires ProductIds(ps) == [1, 2, 3, 4, 5, 6, 7, 8, 9, 10, 11, 12, 13, 14, 15, 16, 17, 18, 19]
    ensures |ps| == 19
    ensures forall i :: 0 <= i < 19 ==> ps[i].id == i + 1
    ensures forall p :: p in ps ==> 1 <= p.id <= 19
    ensures UniqueIds(ps)
  {
    assert |ProductIds(ps)| == 19;
    forall i | 0 <= i < |ps| ensures ps[i].id == i + 1 {
      ProductIdsAt(ps, i);
    }
    IncreasingIdsAreUnique(ps);
  }

  /**
   * Every id from 1 to 19 names exactly one product of the shipped catalog,
   * and no other id names any.
   */
  lemma ShippedIdsUnique()
    ensures |AllProducts(Categories)| == 19
    ensures forall i :: 0 <= i < 19 ==> AllProducts(Categories)[i].id == i + 1
    ensures forall p :: p in AllProducts(Categories) ==> 1 <= p.id <= 19
    ensures UniqueIds(AllProducts(Categories))
  {
    ShippedIdsAreOneToNineteen();
    OneToNineteen(AllProducts(Categories));
  }

  lemma LookupOneToNineteen(cats: seq<Category>, n: int)
    requires ProductIds(AllProducts(cats)) == [1, 2, 3, 4, 5, 6, 7, 8, 9, 10, 11, 12, 13, 14, 15, 16, 17, 18, 19]
    ensures FindProduct(cats, Some(n)).Some? <==> 1 <= n <= 19
    ensures 1 <= n <= 19 ==> FindProduct(cats, Some(n)) == Some(AllProducts(cats)[n - 1])
  {
    var ps := AllProducts(cats);
    OneToNineteen(ps);
    if 1 <= n <= 19 {
      FindProductOfUniqueCatalog(cats, ps[n - 1]);
    }
  }

  /** The detail page finds a product for the route ids 1 to 19, and for no other. */
  lemma ShippedLookup(n: int)
    ensures FindProduct(Categories, Some(n)).Some? <==> 1 <= n <= 19
  {
    ShippedIdsAreOneToNineteen();
    LookupOneToNineteen(Categories, n);
  }

  /** Ten categories, pairwise distinct names, none empty, and exactly one `'Drinks'` product. */
  lemma ShippedCategoryShape()
    ensures |Categories| == 10
    ensures DistinctNames(Categories)
    ensures NoEmptyCategory(Categories)
    ensures forall c :: c in Categories && c.name == "Drinks" ==> |c.products| == 1
  {
  }

  /** The shipped categories in catalog order. */
  lemma ShippedOrder()
    ensures |Categories| == 10
    ensures Categories[0] == Bakery && Categories[1] == Dairy && Categories[2] == Drinks
    ensures Categories[3] == Fruits && Categories[4] == Pantry && Categories[5] == Vegetables
    ensures Categories[6] == Seafood && Categories[7] == Snacks && Categories[8] == Sweets
    ensures Categories[9] == Plants
  {
  }

  /** No shipped category carries an `id` field. */
  lemma ShippedWithoutIds()
    ensures forall c :: c in Categories ==> c.id == None
  {
  }

  /** The shipped category names. */
  lemma ShippedNames()
    ensures forall c :: c in Categories ==>
              c.name in ["Bakery", "Dairy", "Drinks", "Fruits", "Pantry", "Vegetables", "Seafood", "Snacks", "Sweets", "Plants"]
  {
  }

  lemma FirstHalfPaths()
    ensures PathFollowsName(Bakery) && PathFollowsName(Dairy) && PathFollowsName(Drinks)
    ensures PathFollowsName(Fruits) && PathFollowsName(Pantry)
  {
    assert PathFollowsName(Bakery);
    assert PathFollowsName(Dairy);
    assert PathFollowsName(Drinks);
    assert PathFollowsName(Fruits);
    assert PathFollowsName(Pantry);
  }

  lemma SecondHalfPaths()
    ensures PathFollowsName(Vegetables) && PathFollowsName(Seafood) && PathFollowsName(Snacks)
    ensures PathFollowsName(Sweets) && PathFollowsName(Plants)
  {
    assert PathFollowsName(Vegetables);
    assert PathFollowsName(Seafood);
    assert PathFollowsName(Snacks);
    assert PathFollowsName(Sweets);
    assert PathFollowsName(Plants);
  }

  /** Every shipped category's path is `/shop?category=` and its lower-cased name. */
  lemma ShippedPaths()
    ensures PathsFollowNames(Categories)
  {
    FirstHalfPaths();
    SecondHalfPaths();
  }

  /** Availability and price constraints hold for a catalog when they hold for each category. */
  lemma FieldsOfEveryCategory(cats: seq<Category>)
    requires forall c :: c in cats ==> AvailabilityAllowed(c.products) && PricesPositive(c.products)
    ensures AvailabilityAllowed(AllProducts(cats)) && PricesPositive(AllProducts(cats))
  {
  }

  lemma FirstHalfFields()
    ensures AvailabilityAllowed(Bakery.products) && PricesPositive(Bakery.products)
    ensures AvailabilityAllowed(Dairy.products) && PricesPositive(Dairy.products)
    ensures AvailabilityAllowed(Drinks.products) && PricesPositive(Drinks.products)
    ensures AvailabilityAllowed(Fruits.products) && PricesPositive(Fruits.products)
    ensures AvailabilityAllowed(Pantry.products) && PricesPositive(Pantry.products)
  {
  }

  lemma SecondHalfFields()
    ensures AvailabilityAllowed(Vegetables.products) && PricesPositive(Vegetables.products)
    ensures AvailabilityAllowed(Seafood.products) && PricesPositive(Seafood.products)
    ensures AvailabilityAllowed(Snacks.products) && PricesPositive(Snacks.products)
    ensures AvailabilityAllowed(Sweets.products) && PricesPositive(Sweets.products)
    ensures AvailabilityAllowed(Plants.products) && PricesPositive(Plants.products)
  {
  }

  /** Every shipped product is `available` or `low-stock`, and costs more than nothing. */
  lemma ShippedProductFields()
    ensures AvailabilityAllowed(AllProducts(Categories))
    ensures PricesPositive(AllProducts(Categories))
  {
    FirstHalfFields();
    SecondHalfFields();
    FieldsOfEveryCategory(Categories);
  }
}
