/**
 * The static catalog: ten categories, each an ordered list of products.
 * Prices are whole US cents (2.5 dollars is 250); image imports are kept as
 * the asset file they name. Display-only product text is not part of the model.
 */
module ShopData {
  import opened Wrappers

  datatype Product = Product(
    id: int,
    name: string,
    image: string,
    usdCents: int,
    availability: string)

  /** `id` is absent from every shipped category; the Snack view still matches on it. */
  datatype Category = Category(
    id: Option<string>,
    name: string,
    image: string,
    path: string,
    products: seq<Product>)

  const Bakery: Category :=
    Category(None, "Bakery", "assets/bakery.png", "/shop?category=bakery", [
      Product(1, "Baguette", "assets/bread-barkery-1.png", 250, "available"),
      Product(2, "Whole Wheat Bread", "assets/bread-barkery-2.png", 299, "low-stock")
    ])

  const Dairy: Category :=
    Category(None, "Dairy", "assets/dairy.png", "/shop?category=dairy", [
      Product(3, "Milk", "assets/milk-dairy.png", 179, "available"),
      Product(4, "Yogurt", "assets/drink.png", 129, "available")
    ])

  const Drinks: Category :=
    Category(None, "Drinks", "assets/drink.png", "/shop?category=drinks", [
      Product(5, "Energy Drink", "assets/energy-drink.png", 299, "available")
    ])

  const Fruits: Category :=
    Category(None, "Fruits", "assets/Fruits.png", "/shop?category=fruits", [
      Product(6, "Apple", "assets/apple-fruits.png", 99, "available"),
      Product(7, "Cherries", "assets/cherries-fruits.png", 349, "low-stock")
    ])

  const Pantry: Category :=
    Category(None, "Pantry", "assets/pantry.png", "/shop?category=pantry", [
      Product(8, "Rice", "assets/rice-pantry.png", 189, "available"),
      Product(9, "Sugar", "assets/sugar-pantry.png", 139, "available")
    ])

  const Vegetables: Category :=
    Category(None, "Vegetables", "assets/vegetables.png", "/shop?category=vegetables", [
      Product(10, "Broccoli", "assets/vegetables-broccoli.png", 259, "available"),
      Product(11, "Cabbage", "assets/vegetables-cabbage.png", 179, "available")
    ])

  const Seafood: Category :=
    Category(None, "Seafood", "assets/seafood.png", "/shop?category=seafood", [
      Product(12, "Salmon Fillet", "assets/seafood-fish.png", 599, "available"),
      Product(13, "Tuna Slice", "assets/seafood-fish2.png", 499, "low-stock")
    ])

  const Snacks: Category :=
    Category(None, "Snacks", "assets/Snacks.png", "/shop?category=snacks", [
      Product(14, "Snack Bar", "assets/snackbar.png", 129, "available"),
      Product(15, "Fast Food Snack", "assets/snack-fast-food.png", 249, "available")
    ])

  const Sweets: Category :=
    Category(None, "Sweets", "assets/sweets.png", "/shop?category=sweets", [
      Product(16, "Cake Slice", "assets/sweet-slice.png", 379, "available"),
      Product(17, "Pancakes", "assets/sweet-pancake.png", 299, "available")
    ])

  const Plants: Category :=
    Category(None, "Plants", "assets/plants-green.png", "/shop?category=plants", [
      Product(18, "Green Salad 1", "assets/salad-plants-green1.png", 199, "available"),
      Product(19, "Green Salad 2", "assets/salad-plants-green2.png", 229, "available")
    ])

  /** `shopData`, in its order. */
  const Categories: seq<Category> :=
    [Bakery, Dairy, Drinks, Fruits, Pantry, Vegetables, Seafood, Snacks, Sweets, Plants]
}
