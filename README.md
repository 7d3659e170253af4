# sol-client storefront: catalog lookups and the stored cart

A Dafny model of the logic in the sol-client React storefront. Nearly all of that
code is styling and animation. What is left is small:

- a static catalog (`shopData`) of ten categories holding nineteen products;
- the lookups the views run over it: find a product by route id, select a
  category's products, resolve a category from a route parameter, and pick the
  home page's featured products;
- the add-to-cart handler, copied into four views. It reads the JSON list stored
  under the browser key `'cart'`. It bumps the first line with the product's id,
  or pushes a snapshot of the product with quantity 1. Then it writes the list back.
- the home page's SOL price ticker: the trend rule and the fallback price.

Modules (the views follow their source files; `Catalog` and `Cart` gather logic the views share):

- `ShopData` (shop_data.dfy): the `Product` and `Category` records and the catalog constant `Categories`.
- `Catalog` (catalog.dfy): flattening, first-match lookups, `slice(0, n)`, and the catalog shape predicates.
- `CatalogFacts` (catalog_facts.dfy): lemmas about the shipped catalog.
- `Cart` (cart.dfy): the cart line and `AddLine`, the reference definition of one add. It also holds
  `UpdateCart`, the loop that mirrors `cart.find` plus the in-place bump or push, and the `Storage`
  class, which stands for `localStorage` as a map from key to stored value.
- `InfoProduct`, `CategoryProducts`, `Snack`, `Drinks`, `Home`: the views. Each add-to-cart handler
  is a call to `Storage.AddToCart`.

Modelling choices:

- Prices are whole US cents (`usdCents`), because they are only copied and compared with zero.
  The SOL price is a `real`.
- A product id from the route is `Option<int>`: `None` is the NaN that `parseInt` gives for
  a non-numeric id. NaN equals nothing, so it finds nothing.
- `getItem('cart') || '[]'` reads both a missing key and the empty string as `[]`.
  `Malformed` covers the stored texts on which the handler throws before it writes:
  text that `JSON.parse` rejects, a parsed value that is not an array (`find` is missing),
  and an array with a `null` element before the first line carrying the product's id
  (`find` reads `.id` of it and throws). On these the store is unchanged
  (`ParseFailed`). There is no recovery to an empty cart.
- No shipped category has an `id` field. Snack's `cat.id === categoryId` therefore never
  matches, and `ShippedSnacks` proves that any truthy `categoryId` shows an empty page.

## Model

| member | source | states |
|---|---|---|
| `Catalog.AllProducts` | src/components/category/CategoryProducts.jsx:103 | a product is in the flattened list exactly when it is in one of the categories |
| `Catalog.AllProductsAppend` | src/components/category/CategoryProducts.jsx:103 | flattening a catalog split in two gives the two halves' products one after the other |
| `Catalog.FirstMatch` | src/components/info/InfoPorudct.jsx:297-299 | `find` yields the position of an element the test accepts, no earlier element is accepted, and nothing is found exactly when the test accepts no element |
| `Catalog.FindProduct` | src/components/info/InfoPorudct.jsx:290-299 | a product is found iff the parsed id is a number some catalog product has; the result has that id and is the first such in category-then-product order |
| `Catalog.FindProductOfUniqueCatalog` | src/components/info/InfoPorudct.jsx:297-299 | with unique ids, looking up a catalog product's id returns that very product |
| `Catalog.FindCategoryNamedAt` | src/components/category/CategoryProducts.jsx:102 | the category found by name is the first one carrying that name |
| `Catalog.ProductsNamed` | src/components/category/Drinks.jsx:158-160 | the products of the first category with that name; empty when no category has it |
| `Catalog.Take` | src/components/home/Home.jsx:236-239 | `slice(0, n)` gives a prefix of length at most n, and the whole list when it is no longer than n |
| `Catalog.IncreasingIdsAreUnique` | src/components/data/ShopData.js:43-305 | strictly increasing ids are pairwise distinct |
| `CatalogFacts.ShippedProducts` | src/components/data/ShopData.js:36-316 | flattening the shipped catalog gives each category's products in catalog order |
| `CatalogFacts.ShippedOrder` | src/components/data/ShopData.js:36-316 | the catalog holds ten categories: Bakery, Dairy, Drinks, Fruits, Pantry, Vegetables, Seafood, Snacks, Sweets and Plants, in that order |
| `CatalogFacts.ShippedIdsAreOneToNineteen` | src/components/data/ShopData.js:36-316 | the flattened ids read 1, 2, ..., 19 |
| `CatalogFacts.ShippedIdsUnique` | src/components/data/ShopData.js:43-305 | 19 products, the i-th has id i+1, every id lies in 1..19 and ids are unique |
| `CatalogFacts.ShippedLookup` | src/components/info/InfoPorudct.jsx:291-299 | the detail page finds a product for the ids 1 to 19 and for no other id |
| `CatalogFacts.ShippedCategoryShape` | src/components/data/ShopData.js:38-289 | 10 categories with pairwise distinct names, none empty, and `'Drinks'` has exactly one product |
| `CatalogFacts.ShippedNames` | src/components/data/ShopData.js:38-289 | every category name is one of the ten shipped names |
| `CatalogFacts.ShippedWithoutIds` | src/components/data/ShopData.js:37-316 | no category object has an `id` field |
| `CatalogFacts.ShippedPaths` | src/components/data/ShopData.js:40-290 | every path is `/shop?category=` followed by the lower-cased category name |
| `CatalogFacts.ShippedProductFields` | src/components/data/ShopData.js:46-311 | every availability is `available` or `low-stock`, and every price is positive |
| `Cart.AddLineExisting` | src/components/info/InfoPorudct.jsx:336-339 | when line k is the first with the product's id, only line k changes, its quantity rises by 1, and the length is unchanged |
| `Cart.AddLineNew` | src/components/info/InfoPorudct.jsx:340-347 | when no line has the id, exactly one snapshot line (product's id, name, price, image, quantity 1) is appended at the end |
| `Cart.AddLineTotal` | src/components/category/CategoryProducts.jsx:126-139 | each add raises the sum of all quantities by exactly 1 |
| `Cart.AddLineQuantityOf` | src/components/category/CategoryProducts.jsx:127-137 | the product's id gains exactly 1 in quantity; every other id keeps its quantity |
| `Cart.AddLineIds` | src/components/category/Snack.jsx:214-229 | the set of ids after an add is the old set plus the product's id |
| `Cart.UniqueLineIdsSplit` | src/components/info/InfoPorudct.jsx:336-347 | a cart's ids are unique exactly when the first id is not among the rest and the rest are unique |
| `Cart.AddLineKeepsIdsUnique` | src/components/info/InfoPorudct.jsx:336-347 | if ids were unique before the add, they are unique after it |
| `Cart.AddLineKeepsOthers` | src/components/category/Drinks.jsx:194-208 | lines of other products keep every field and their relative order |
| `Cart.UpdateCart` | src/components/info/InfoPorudct.jsx:336-347 | the find-then-bump-or-push scan yields exactly the reference add `AddLine` |
| `Cart.ClicksAccumulate` | src/components/category/CategoryProducts.jsx:124-139 | after any run of adds, each id's quantity grows by the clicks on it, the total by the number of clicks, and unique ids stay unique |
| `Cart.Storage.AddToCart` | src/components/info/InfoPorudct.jsx:335-350 | a missing or empty `'cart'` reads as []; a failed parse changes nothing; otherwise the updated list is written under `'cart'` and no other key changes; the unique-id invariant and total+1 hold |
| `InfoProduct.HandleAddToCart` | src/components/info/InfoPorudct.jsx:332-350 | `ProductMissing` exactly when no product has the route id, and then the store is untouched; otherwise the shared update with the found product: a failed parse changes nothing, and any other stored cart is replaced under `'cart'` by the updated list |
| `CategoryProducts.SelectProducts` | src/components/category/CategoryProducts.jsx:101-103 | a falsy or `'All'` category gives all products in category order; a known name gives the first such category's products; an unknown name gives [] |
| `CategoryProducts.SelectNamedCategory` | src/components/category/CategoryProducts.jsx:102 | with distinct names, selecting a category's name yields exactly its products |
| `CategoryProducts.ShippedSelections` | src/components/category/CategoryProducts.jsx:101-103 | in the shipped catalog `'All'` lists 19 products and `'Drinks'` lists only the drinks category's product |
| `CategoryProducts.ShippedUnknownCategory` | src/components/category/CategoryProducts.jsx:102 | an unknown name (`'Meat'`) yields the empty list, not an error |
| `CategoryProducts.UnknownNameSelectsNothing` | src/components/category/CategoryProducts.jsx:101-103 | any name that is not `'All'` and that no category has selects the empty list |
| `CategoryProducts.HandleAddToCart` | src/components/category/CategoryProducts.jsx:124-139 | the shared update never reports a missing product: a failed parse changes nothing, and otherwise the updated list is always written under `'cart'` and no other key changes |
| `Snack.ResolveCategory` | src/components/category/Snack.jsx:176-178 | with a truthy categoryId, a category is found iff one has that `id`, and it is the first such; otherwise iff one is named `'Snacks'`, and it is the first such |
| `Snack.SnackProducts` | src/components/category/Snack.jsx:175-181 | the resolved first category's products, or [] when none resolves |
| `Snack.NoIdsResolveNothing` | src/components/category/Snack.jsx:176-180 | in a catalog whose categories have no `id`, a truthy categoryId resolves nothing and the page lists no products |
| `Snack.SnackView.constructor` | src/components/category/Snack.jsx:155 | `currentCategory` starts as `'Snacks'` |
| `Snack.SnackView.SyncCategory` | src/components/category/Snack.jsx:164-173 | `currentCategory` takes the resolved category's name, and stays as it was when nothing resolves |
| `Snack.ShippedSnacks` | src/components/category/Snack.jsx:175-181 | shipped catalog: any truthy categoryId resolves nothing and shows []; without one, the Snacks category and its products |
| `Snack.HandleAddToCart` | src/components/category/Snack.jsx:212-229 | the shared update never reports a missing product: a failed parse changes nothing, and otherwise the updated list is always written under `'cart'` and no other key changes |
| `Drinks.ShippedDrinks` | src/components/category/Drinks.jsx:158-160 | the drinks page shows exactly the drinks category's products, whose ids are [5] |
| `Drinks.HandleAddToCart` | src/components/category/Drinks.jsx:191-208 | the shared update never reports a missing product: a failed parse changes nothing, and otherwise the updated list is always written under `'cart'` and no other key changes |
| `Home.Featured` | src/components/home/Home.jsx:235-239 | at most 4 products: up to 2 from Bakery, then up to 1 from Dairy, then up to 1 from Snacks; the final cap removes nothing |
| `Home.FeaturedFrom` | src/components/home/Home.jsx:235-239 | when Bakery holds at least two products and Dairy and Snacks at least one each, the featured list is the first two of Bakery, then the first of Dairy, then the first of Snacks |
| `Home.ShippedFeatured` | src/components/home/Home.jsx:235-239 | with the shipped catalog the featured ids are [1, 2, 3, 14] |
| `Home.PriceTicker.constructor` | src/components/home/Home.jsx:228-229 | price and trend both start unset |
| `Home.PriceTicker.FetchSolPrice` | src/components/home/Home.jsx:250-261 | a fetched price is stored and the trend is up iff it exceeds 145; on failure the price is 145.32 and the trend is unchanged |
| `Home.HandleAddToCart` | src/components/home/Home.jsx:317-330 | Home's add button leaves the stored cart untouched and only yields its log line |

## Left out

- Styling, animation (gsap, Lottie, Swiper), snackbars and layout: none of it is behaviour.
- Display-only product fields are not modelled: `tooltip`, `description`, `nutrition` and `featured` text.
- Image imports are kept as the asset file name they refer to.
- JSON serialisation: the round trip through `JSON.stringify`/`JSON.parse` is assumed lossless.
- Stored arrays whose elements are not cart lines are not modelled. A stored `[1]` does not throw:
  `(1).id` is `undefined`, so the snapshot is pushed and `[1, {...}]` is written. A stored line
  without `quantity` gets `NaN`, which is written back as `null`.
  A `null` element after the line carrying the product's id is never reached by `find`, so it is
  written back unchanged beside the bumped line.
- Bump, AddLine: quantities are unbounded integers. The source stores a JavaScript double, and
  `quantity += 1` stops changing it at 2^53, so there the source breaks the +1 that `AddLineTotal`,
  `AddLineQuantityOf` and `ClicksAccumulate` prove.
- A failing `localStorage.setItem` is not modelled. The write at src/components/info/InfoPorudct.jsx:350
  and its copies have no guard, so a full storage quota throws after the update.
- Floating-point prices, `toFixed` formatting and the USD-to-SOL division are not modelled.
  Prices are integer cents. The trend comparison uses `real`.
- The CoinGecko request and its 60-second `setInterval` are not modelled. `FetchSolPrice` takes
  the fetched price (or failure) as a parameter and models one round.
- The random rotation of cashier messages (`Math.random`) is not modelled.
- `console.log` output is not modelled, except Home's add-button line, which `Home.HandleAddToCart` returns
  as a string because logging is all that handler does. The detail page's log of the cart is left out.
- Login, registration and document upload are network calls behind thin forms, so they are not modelled.
- Cart removal, clearing and the total price do not exist in the code: the cart page
  (src/components/cart/Cart.jsx) is a static placeholder. Only adding is modelled.
- Several tabs writing the same key at once are not modelled.
