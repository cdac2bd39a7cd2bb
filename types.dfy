/** The records the storefront passes around (types.ts), plus an Option type
    for values that may be missing (a `Map.get` miss, a failed fetch). */
module Types {

  datatype Option<+T> = None | Some(value: T)

  /** A catalogue product. Prices are whole cents, never negative. */
  datatype Product = Product(
    id: int,
    name: string,
    price: nat,
    originalPrice: Option<nat>,
    imageUrl: string,
    category: string,
    isFlashSale: bool)

  /** One line of the cart: the product record captured when it was first
      added, and how many of it are in the cart. */
  datatype CartItem = CartItem(product: Product, quantity: int)
}
