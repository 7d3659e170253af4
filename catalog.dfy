/**
 * Read-only lookups over a catalog, as the views perform them with
 * `find`, `flatMap` and `filter`, and the shape invariants a catalog may satisfy.
 */
module Catalog {
  import opened Wrappers
  import opened ShopData

  /** `cats.flatMap(cat => cat.products)`: all products, category by category, each in its own order. */
  function AllProducts(cats: seq<Category>): (r: seq<Product>)
    ensures forall p :: p in r <==> exists c :: c in cats && p in c.products
  {
    if cats == [] then [] else cats[0].products + AllProducts(cats[1..])
  }

  /** Flattening distributes over concatenation of catalogs. */
  lemma {:induction false} AllProductsAppend(a: seq<Category>, b: seq<Category>)
    ensures AllProducts(a + b) == AllProducts(a) + AllProducts(b)
  {
    if a == [] {
      assert a + b == b;
    } else {
      assert (a + b)[1..] == a[1..] + b;
      AllProductsAppend(a[1..], b);
    }
  }

  /** The ids of a product list, in order. */
  function ProductIds(ps: seq<Product>): (r: seq<int>)
    ensures |r| == |ps|
  {
    if ps == [] then [] else [ps[0].id] + ProductIds(ps[1..])
  }

  /**
   * `Array.prototype.find` as a position: the first element `matches` accepts,
   * or `None` when it accepts none.
   */
  function FirstMatch<T>(s: seq<T>, matches: T -> bool): (k: Option<nat>)
    ensures k.Some? ==> k.value < |s| && matches(s[k.value])
    ensures k.Some? ==> forall j :: 0 <= j < k.value ==> !matches(s[j])
    ensures k.None? <==> forall j :: 0 <= j < |s| ==> !matches(s[j])
  {
    if s == [] then None
    else if matches(s[0]) then Some(0)
    else match FirstMatch(s[1..], matches)
      case None => None
      case Some(i) => Some(i + 1)
  }

  /**
   * The product lookup of the detail page: `flatMap` then `find` on the id. A route
   * id that `parseInt` turns into NaN is `None` and, NaN being equal to nothing, matches nothing.
   */
  function FindProduct(cats: seq<Category>, productId: Option<int>): (r: Option<Product>)
    ensures r.Some? <==> productId.Some? && exists p :: p in AllProducts(cats) && p.id == productId.value
    ensures r.Some? ==> r.value in AllProducts(cats) && r.value.id == productId.value
    ensures r.Some? ==> exists k :: 0 <= k < |AllProducts(cats)| && AllProducts(cats)[k] == r.value &&
                          forall j :: 0 <= j < k ==> AllProducts(cats)[j].id != r.value.id
  {
    if productId.None? then None
    else
      var ps := AllProducts(cats);
      match FirstMatch(ps, (p: Product) => p.id == productId.value)
      case None => None
      case Some(k) => Some(ps[k])
  }

  function CategoryAt(cats: seq<Category>, k: Option<nat>): Option<Category>
    requires k.Some? ==> k.value < |cats|
  {
    if k.None? then None else Some(cats[k.value])
  }

  /** `cats.find(cat => cat.category === name)`. */
  function FindCategoryNamed(cats: seq<Category>, name: string): Option<Category>
  {
    CategoryAt(cats, FirstMatch(cats, (c: Category) => c.name == name))
  }

  /** `cats.find(cat => cat.id === cid)`. */
  function FindCategoryWithId(cats: seq<Category>, cid: string): Option<Category>
  {
    CategoryAt(cats, FirstMatch(cats, (c: Category) => c.id == Some(cid)))
  }

  /** The category found by name is the first one carrying it. */
  lemma FindCategoryNamedAt(cats: seq<Category>, k: nat, name: string)
    requires k < |cats| && cats[k].name == name
    requires forall j :: 0 <= j < k ==> cats[j].name != name
    ensures FindCategoryNamed(cats, name) == Some(cats[k])
  {
  }

  /** JavaScript truthiness of an optional string: neither missing nor empty. */
  predicate Truthy(s: Option<string>)
  {
    s.Some? && s.value != ""
  }

  /** `found?.products || []`: a missing category contributes no products. */
  function ProductsOf(found: Option<Category>): seq<Product>
  {
    if found.None? then [] else found.value.products
  }

  /** Products of the first category named `name`, or none if there is no such category. */
  function ProductsNamed(cats: seq<Category>, name: string): (r: seq<Product>)
    ensures (forall c :: c in cats ==> c.name != name) ==> r == []
    ensures forall k :: (0 <= k < |cats| && cats[k].name == name &&
                         (forall j :: 0 <= j < k ==> cats[j].name != name)) ==> r == cats[k].products
  {
    ProductsOf(FindCategoryNamed(cats, name))
  }

  /** JavaScript's `slice(0, n)`: at most the first `n` elements. */
  function Take<T>(s: seq<T>, n: nat): (r: seq<T>)
    ensures |r| <= n && r <= s
    ensures |s| >= n ==> |r| == n
    ensures |s| <= n ==> r == s
  {
    if |s| <= n then s else s[..n]
  }

  // ---- catalog shape invariants ----

  predicate DistinctNames(cats: seq<Category>)
  {
    forall i, j :: 0 <= i < j < |cats| ==> cats[i].name != cats[j].name
  }

  predicate UniqueIds(ps: seq<Product>)
  {
    forall i, j :: 0 <= i < j < |ps| ==> ps[i].id != ps[j].id
  }

  predicate NoEmptyCategory(cats: seq<Category>)
  {
    forall c :: c in cats ==> |c.products| > 0
  }

  predicate AvailabilityAllowed(ps: seq<Product>)
  {
    forall p :: p in ps ==> p.availability == "available" || p.availability == "low-stock"
  }

  predicate PricesPositive(ps: seq<Product>)
  {
    forall p :: p in ps ==> p.usdCents > 0
  }

  /** ASCII `toLowerCase`, which is all the category names need. */
  function LowerChar(ch: char): char
  {
    if 'A' <= ch <= 'Z' then (ch as int + 32) as char else ch
  }

  function Lower(s: string): (r: string)
  {
    seq(|s|, i requires 0 <= i < |s| => LowerChar(s[i]))
  }

  predicate PathFollowsName(c: Category)
  {
    c.path == "/shop?category=" + Lower(c.name)
  }

  predicate PathsFollowNames(cats: seq<Category>)
  {
    forall c :: c in cats ==> PathFollowsName(c)
  }

  /** With unique ids the lookup of a catalog product's id finds that very product. */
  lemma FindProductOfUniqueCatalog(cats: seq<Category>, p: Product)
    requires UniqueIds(AllProducts(cats))
    requires p in AllProducts(cats)
    ensures FindProduct(cats, Some(p.id)) == Some(p)
  {
  }

  /** Strictly increasing ids are pairwise distinct. */
  lemma IncreasingIdsAreUnique(ps: seq<Product>)
    requires forall i :: 0 <= i < |ps| - 1 ==> ps[i].id < ps[i + 1].id
    ensures UniqueIds(ps)
  {
    forall i, j | 0 <= i < j < |ps| ensures ps[i].id < ps[j].id {
      IncreasingFrom(ps, i, j);
    }
  }

  lemma {:induction false} IncreasingFrom(ps: seq<Product>, i: nat, j: nat)
    requires forall i :: 0 <= i < |ps| - 1 ==> ps[i].id < ps[i + 1].id
    requires i < j < |ps|
    ensures ps[i].id < ps[j].id
    decreases j - i
  {
    if j > i + 1 {
      IncreasingFrom(ps, i + 1, j);
    }
  }
}
